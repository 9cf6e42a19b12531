/** The single database field that holds a nonce and a ciphertext: base64(nonce || ciphertext). */
module StoredField {
  import opened Basics
  import opened Aead
  import Base64

  datatype SplitError = BadBase64 | TooShort(want: int, got: nat)

  function CombineNonceAndCiphertext(nonce: Bytes, ciphertext: Bytes): string {
    Base64.Encode(nonce + ciphertext)
  }

  /**
    Go slices combined[:nonceSize]; a negative size panics there, hence nat. The result pair is
    (nonce, ciphertext).
   */
  function SplitNonceAndCiphertext(combined: string, nonceSize: nat): Result<(Bytes, Bytes), SplitError> {
    match Base64.Decode(combined)
    case None => Err(BadBase64)
    case Some(raw) =>
      if |raw| < nonceSize then Err(TooShort(nonceSize, |raw|))
      else Ok((raw[..nonceSize], raw[nonceSize..]))
  }

  /** What a field holds, and how splitting it can fail. */
  lemma FieldHolds(nonce: Bytes, ciphertext: Bytes, field: string, nonceSize: nat)
    ensures Base64.Decode(CombineNonceAndCiphertext(nonce, ciphertext)) == Some(nonce + ciphertext)
    ensures SplitNonceAndCiphertext(field, nonceSize) == Err(BadBase64) <==> Base64.Decode(field).None?
    ensures forall raw :: Base64.Decode(field) == Some(raw) ==>
              SplitNonceAndCiphertext(field, nonceSize) ==
              if |raw| < nonceSize then Err(TooShort(nonceSize, |raw|)) else Ok((raw[..nonceSize], raw[nonceSize..]))
  {
    Base64.RoundTrip(nonce + ciphertext);
  }

  lemma SplitCombine(nonce: Bytes, ciphertext: Bytes)
    ensures SplitNonceAndCiphertext(CombineNonceAndCiphertext(nonce, ciphertext), |nonce|) == Ok((nonce, ciphertext))
  {
    var raw := nonce + ciphertext;
    Base64.RoundTrip(raw);
    assert raw[..|nonce|] == nonce && raw[|nonce|..] == ciphertext;
  }

  /** Two fields are equal only when they hold the same nonce and the same ciphertext. */
  lemma CombineIsInjective(n1: Nonce, c1: Bytes, n2: Nonce, c2: Bytes)
    requires CombineNonceAndCiphertext(n1, c1) == CombineNonceAndCiphertext(n2, c2)
    ensures n1 == n2 && c1 == c2
  {
    SplitCombine(n1, c1);
    SplitCombine(n2, c2);
  }

  /** With nonces of differing lengths it is not: the boundary is not stored in the field. */
  lemma BoundaryIsNotStored(n: Bytes, x: Byte, c: Bytes)
    ensures CombineNonceAndCiphertext(n + [x], c) == CombineNonceAndCiphertext(n, [x] + c)
  {
    assert (n + [x]) + c == n + ([x] + c);
  }

  /** A field splits exactly when it is base64 (newlines aside) of at least a nonce. */
  lemma SplitAccepts(field: string, nonceSize: nat)
    ensures SplitNonceAndCiphertext(field, nonceSize).Ok? <==>
            && Base64.WellFormed(Base64.SkipNewlines(field))
            && Base64.Decode(field).Some? && |Base64.Decode(field).value| >= nonceSize
  {
    Base64.DecodeAccepts(Base64.SkipNewlines(field));
  }

  /** The width of the column: 4 * ceil((L + 28) / 3) characters for a plaintext of L octets. */
  lemma StoredLength(k: Cipher, nonce: Nonce, plaintext: Bytes)
    requires k.Lawful()
    ensures |CombineNonceAndCiphertext(nonce, k.seal(nonce, plaintext))| == (|plaintext| + 28 + 2) / 3 * 4
  {
    Base64.EncodeLength(nonce + k.seal(nonce, plaintext));
  }
}
