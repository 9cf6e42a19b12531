/** Card records, their encrypted form, and what the encrypted form decrypts to. */
module Records {
  import opened Basics
  import opened Aead
  import opened StoredField

  datatype Card = Card(id: int, cardNo: Bytes, cvv: Bytes, other: Bytes)

  datatype EncryptedRecord = EncryptedRecord(sourceId: int, pan: string, cvv: string, other: Bytes)

  /** The record a worker builds from the two Encrypt answers. */
  function Assemble(card: Card, pan: Sealed, cvv: Sealed): EncryptedRecord {
    EncryptedRecord(card.id,
                    CombineNonceAndCiphertext(pan.nonce, pan.ciphertext),
                    CombineNonceAndCiphertext(cvv.nonce, cvv.ciphertext),
                    card.other)
  }

  function SealField(k: Cipher, nonce: Nonce, plaintext: Bytes): Sealed {
    Sealed(k.seal(nonce, plaintext), nonce)
  }

  /** What a stored field decrypts to under key k, if it does. */
  function OpenField(k: Cipher, field: string): Option<Bytes> {
    match SplitNonceAndCiphertext(field, NONCE_SIZE)
    case Err(_) => None
    case Ok(parts) => k.open(parts.0, parts.1)
  }

  function OpenSealed(k: Cipher, sealed: Sealed): Option<Bytes> {
    if |sealed.nonce| == NONCE_SIZE then k.open(sealed.nonce, sealed.ciphertext) else None
  }

  /** The card an encrypted record stands for. */
  function Recovered(k: Cipher, e: EncryptedRecord): Option<Card> {
    var pan, cvv := OpenField(k, e.pan), OpenField(k, e.cvv);
    if pan.Some? && cvv.Some? then Some(Card(e.sourceId, pan.value, cvv.value, e.other)) else None
  }

  /** An encrypted record seen through decryption under k. */
  function View(k: Cipher): EncryptedRecord -> Option<Card> {
    e => Recovered(k, e)
  }

  function Somes(cards: seq<Card>): seq<Option<Card>> {
    if cards == [] then [] else [Some(cards[0])] + Somes(cards[1..])
  }

  lemma OpenAssembledField(k: Cipher, sealed: Sealed)
    requires |sealed.nonce| == NONCE_SIZE
    ensures OpenField(k, CombineNonceAndCiphertext(sealed.nonce, sealed.ciphertext)) == OpenSealed(k, sealed)
  {
    SplitCombine(sealed.nonce, sealed.ciphertext);
  }

  /** Decrypting what a worker assembled gives the card back, whatever nonces were drawn. */
  lemma AssembledIsCard(k: Cipher, card: Card, pan: Sealed, n: Nonce)
    requires k.Lawful() && OpenSealed(k, pan) == Some(card.cardNo)
    ensures Recovered(k, Assemble(card, pan, SealField(k, n, card.cvv))) == Some(card)
  {
    OpenAssembledField(k, pan);
    OpenAssembledField(k, SealField(k, n, card.cvv));
  }

  // How often a card occurs among cards.

  ghost function CardTally(cards: seq<Card>, x: Option<Card>): nat {
    if x.Some? then multiset(cards)[x.value] else 0
  }

  lemma CardTallyConcat(a: seq<Card>, b: seq<Card>, x: Option<Card>)
    ensures CardTally(a + b, x) == CardTally(a, x) + CardTally(b, x)
  {
  }

  lemma CardTallyOne(card: Card, x: Option<Card>)
    ensures CardTally([card], x) == if Some(card) == x then 1 else 0
  {
  }

  lemma CardTallyAppend(cards: seq<Card>, card: Card, x: Option<Card>)
    ensures CardTally(cards + [card], x) == CardTally(cards, x) + if Some(card) == x then 1 else 0
  {
    CardTallyConcat(cards, [card], x);
    CardTallyOne(card, x);
  }

  lemma CardTallyHead(a: seq<Card>, x: Option<Card>)
    requires a != []
    ensures CardTally(a, x) == (if Some(a[0]) == x then 1 else 0) + CardTally(a[1..], x)
  {
    assert a == [a[0]] + a[1..];
  }

  lemma {:induction false} CardTallyIsMultiplicity(cards: seq<Card>, x: Option<Card>)
    ensures CardTally(cards, x) == multiset(Somes(cards))[x]
  {
    if cards != [] {
      CardTallyIsMultiplicity(cards[1..], x);
      assert cards == [cards[0]] + cards[1..];
    }
  }
}
