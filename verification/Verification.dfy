/** Checking one stored record against its source row, and the report over many such checks. */
module Verification {
  import opened Basics
  import opened Aead
  import opened StoredField
  import opened Records

  /** The PANError / CVVError text; NoProblem is the empty string. */
  datatype Problem = NoProblem | NotFound | TimedOut | SplitFailed(error: SplitError) | DecryptFailed

  datatype VerificationRecord = VerificationRecord(
    sourceId: int, originalPan: Bytes, originalCvv: Bytes,
    encryptedPan: string, encryptedCvv: string,
    decryptedPan: Bytes, decryptedCvv: Bytes,
    panMatch: bool, cvvMatch: bool,
    panError: Problem, cvvError: Problem,
    other: Bytes)

  /** The source row a verification record is about. */
  function Origin(v: VerificationRecord): Card {
    Card(v.sourceId, v.originalPan, v.originalCvv, v.other)
  }

  function ByOrigin(): VerificationRecord -> Card {
    v => Origin(v)
  }

  function Failed(card: Card, p: Problem): VerificationRecord {
    VerificationRecord(card.id, card.cardNo, card.cvv, "", "", [], [], false, false, p, p, card.other)
  }

  datatype Check = Check(decrypted: Bytes, matches: bool, error: Problem)

  /** One field: split, Decrypt call (answered is false when the call itself fails), compare. */
  function CheckField(k: Cipher, field: string, original: Bytes, answered: bool): Check {
    match SplitNonceAndCiphertext(field, NONCE_SIZE)
    case Err(e) => Check([], false, SplitFailed(e))
    case Ok(parts) =>
      if !answered then Check([], false, DecryptFailed)
      else match k.open(parts.0, parts.1)
        case None => Check([], false, DecryptFailed)
        case Some(plain) => Check(plain, plain == original, NoProblem)
  }

  function VerifyRecord(
      k: Cipher, card: Card, e: EncryptedRecord, panAnswered: bool, cvvAnswered: bool): VerificationRecord {
    var pan, cvv := CheckField(k, e.pan, card.cardNo, panAnswered), CheckField(k, e.cvv, card.cvv, cvvAnswered);
    VerificationRecord(card.id, card.cardNo, card.cvv, e.pan, e.cvv,
                       pan.decrypted, cvv.decrypted, pan.matches, cvv.matches, pan.error, cvv.error, card.other)
  }

  /** v is one of the three kinds of record the verifier produces for this card. */
  ghost predicate ResultFor(k: Cipher, stored: map<int, EncryptedRecord>, card: Card, v: VerificationRecord) {
    if card.id !in stored then v == Failed(card, NotFound)
    else v == Failed(card, TimedOut) || exists p, q :: v == VerifyRecord(k, card, stored[card.id], p, q)
  }

  lemma ResultIsAboutCard(
      k: Cipher, stored: map<int, EncryptedRecord>, card: Card, v: VerificationRecord)
    requires ResultFor(k, stored, card, v)
    ensures Origin(v) == card
    ensures v.sourceId == card.id && v.originalPan == card.cardNo && v.originalCvv == card.cvv && v.other == card.other
    ensures v.panMatch ==> v.panError == NoProblem
    ensures v.cvvMatch ==> v.cvvError == NoProblem
  {
  }

  /** One field's share of a verification record, told from the stored field and what it decrypts to. */
  ghost predicate FieldReported(k: Cipher, field: string, original: Bytes, answered: bool,
                                decrypted: Bytes, matches: bool, error: Problem)
  {
    && (error.SplitFailed? <==> SplitNonceAndCiphertext(field, NONCE_SIZE).Err?)
    && (error.NoProblem? <==> answered && OpenField(k, field).Some?)
    && (error.NoProblem? || error.SplitFailed? || error.DecryptFailed?)
    && (if error.NoProblem? then Some(decrypted) == OpenField(k, field) else decrypted == [])
    && (matches <==> error.NoProblem? && decrypted == original)
  }

  /** Each field is reported on its own, whatever happened to the other. */
  lemma FieldsReported(k: Cipher, card: Card, e: EncryptedRecord, p: bool, q: bool)
    ensures var v := VerifyRecord(k, card, e, p, q);
            && Origin(v) == card && v.encryptedPan == e.pan && v.encryptedCvv == e.cvv
            && FieldReported(k, e.pan, card.cardNo, p, v.decryptedPan, v.panMatch, v.panError)
            && FieldReported(k, e.cvv, card.cvv, q, v.decryptedCvv, v.cvvMatch, v.cvvError)
  {
    CheckReported(k, e.pan, card.cardNo, p);
    CheckReported(k, e.cvv, card.cvv, q);
  }

  lemma CheckReported(k: Cipher, field: string, original: Bytes, answered: bool)
    ensures var c := CheckField(k, field, original, answered);
            FieldReported(k, field, original, answered, c.decrypted, c.matches, c.error)
  {
  }

  /** A record about an id that is not stored carries the missing error in both fields, and nothing else does. */
  lemma MissingIsReported(k: Cipher, stored: map<int, EncryptedRecord>, card: Card, v: VerificationRecord)
    requires ResultFor(k, stored, card, v)
    ensures v.panError == NotFound <==> card.id !in stored
    ensures v.cvvError == NotFound <==> card.id !in stored
    ensures card.id !in stored ==> Unchecked(v)
  {
    if card.id in stored && v != Failed(card, TimedOut) {
      var p, q :| v == VerifyRecord(k, card, stored[card.id], p, q);
      FieldsReported(k, card, stored[card.id], p, q);
    }
  }

  /** A record about a stored id is a timeout in both fields, or tells what its two checks found. */
  lemma StoredIsReported(k: Cipher, stored: map<int, EncryptedRecord>, card: Card, v: VerificationRecord)
    requires ResultFor(k, stored, card, v) && card.id in stored
    ensures v.panError == TimedOut <==> v.cvvError == TimedOut
    ensures v.panError == TimedOut ==> Unchecked(v)
    ensures v.panError != TimedOut ==>
              && v.encryptedPan == stored[card.id].pan && v.encryptedCvv == stored[card.id].cvv
              && exists p, q ::
                   && FieldReported(k, v.encryptedPan, card.cardNo, p, v.decryptedPan, v.panMatch, v.panError)
                   && FieldReported(k, v.encryptedCvv, card.cvv, q, v.decryptedCvv, v.cvvMatch, v.cvvError)
  {
    if v != Failed(card, TimedOut) {
      var p, q :| v == VerifyRecord(k, card, stored[card.id], p, q);
      FieldsReported(k, card, stored[card.id], p, q);
    }
  }

  /** Nothing has been decrypted or compared. */
  predicate Unchecked(v: VerificationRecord) {
    && !v.panMatch && !v.cvvMatch && v.encryptedPan == "" && v.encryptedCvv == ""
    && v.decryptedPan == [] && v.decryptedCvv == []
  }

  predicate Perfect(v: VerificationRecord) {
    v.panMatch && v.cvvMatch && v.panError == NoProblem && v.cvvError == NoProblem
  }

  /** A perfect match can only be reported for a card whose stored record really decrypts to its fields ... */
  lemma PerfectIsStored(
      k: Cipher, stored: map<int, EncryptedRecord>, card: Card, v: VerificationRecord)
    requires ResultFor(k, stored, card, v) && Perfect(v)
    ensures card.id in stored
    ensures var r := Recovered(k, stored[card.id]);
            r.Some? && r.value.cardNo == card.cardNo && r.value.cvv == card.cvv
  {
  }

  /** ... and is reported for such a card whenever both Decrypt calls are answered. */
  lemma StoredIsPerfect(k: Cipher, card: Card, e: EncryptedRecord)
    requires Recovered(k, e).Some?
    requires Recovered(k, e).value.cardNo == card.cardNo && Recovered(k, e).value.cvv == card.cvv
    ensures Perfect(VerifyRecord(k, card, e, true, true))
  {
  }

  // ---------------------------------------------------------------- the report

  predicate Counts(v: VerificationRecord, checkPan: bool, checkCvv: bool) {
    && (checkPan || checkCvv)
    && (checkPan ==> v.panMatch && v.panError == NoProblem)
    && (checkCvv ==> v.cvvMatch && v.cvvError == NoProblem)
  }

  /** The positions counted. */
  function Counted(vs: seq<VerificationRecord>, checkPan: bool, checkCvv: bool): set<nat> {
    set i: nat | i < |vs| && Counts(vs[i], checkPan, checkCvv)
  }

  lemma CountedAppend(
      vs: seq<VerificationRecord>, v: VerificationRecord, checkPan: bool, checkCvv: bool)
    ensures |Counted(vs + [v], checkPan, checkCvv)|
            == |Counted(vs, checkPan, checkCvv)| + if Counts(v, checkPan, checkCvv) then 1 else 0
  {
    var before := Counted(vs, checkPan, checkCvv);
    assert |vs| !in before;
    assert Counted(vs + [v], checkPan, checkCvv) == before + if Counts(v, checkPan, checkCvv) then {|vs|} else {};
  }

  lemma CountedIs(vs: seq<VerificationRecord>, checkPan: bool, checkCvv: bool)
    ensures checkPan && checkCvv ==>
              Counted(vs, checkPan, checkCvv) ==
              set i: nat | i < |vs| && vs[i].panMatch && vs[i].cvvMatch
                           && vs[i].panError == NoProblem && vs[i].cvvError == NoProblem
    ensures checkPan && !checkCvv ==>
              Counted(vs, checkPan, checkCvv) == set i: nat | i < |vs| && vs[i].panMatch && vs[i].panError == NoProblem
    ensures !checkPan && checkCvv ==>
              Counted(vs, checkPan, checkCvv) == set i: nat | i < |vs| && vs[i].cvvMatch && vs[i].cvvError == NoProblem
    ensures !checkPan && !checkCvv ==> Counted(vs, checkPan, checkCvv) == {}
  {
  }

  method CountMatches(results: seq<VerificationRecord>, checkPan: bool, checkCvv: bool) returns (count: nat)
    ensures count == |Counted(results, checkPan, checkCvv)|
    ensures checkPan && checkCvv ==>
              count == |set i: nat | i < |results| && results[i].panMatch && results[i].cvvMatch
                                     && results[i].panError == NoProblem && results[i].cvvError == NoProblem|
    ensures checkPan && !checkCvv ==>
              count == |set i: nat | i < |results| && results[i].panMatch && results[i].panError == NoProblem|
    ensures !checkPan && checkCvv ==>
              count == |set i: nat | i < |results| && results[i].cvvMatch && results[i].cvvError == NoProblem|
    ensures !checkPan && !checkCvv ==> count == 0
  {
    CountedIs(results, checkPan, checkCvv);
    count := 0;
    for i := 0 to |results|
      invariant count == |Counted(results[..i], checkPan, checkCvv)|
    {
      var r := results[i];
      assert results[..i + 1] == results[..i] + [r];
      CountedAppend(results[..i], r, checkPan, checkCvv);
      if checkPan && checkCvv {
        if r.panMatch && r.cvvMatch && r.panError == NoProblem && r.cvvError == NoProblem {
          count := count + 1;
        }
      } else if checkPan {
        if r.panMatch && r.panError == NoProblem {
          count := count + 1;
        }
      } else if checkCvv {
        if r.cvvMatch && r.cvvError == NoProblem {
          count := count + 1;
        }
      }
    }
    assert results[..|results|] == results;
  }

  datatype Colour = Green | Red | Yellow | Uncoloured

  /** The if-else chain that colours a row of the results sheet. */
  function RowColour(v: VerificationRecord): Colour {
    if v.panMatch && v.cvvMatch && v.panError == NoProblem && v.cvvError == NoProblem then Green
    else if v.panError != NoProblem || v.cvvError != NoProblem then Red
    else if !v.panMatch || !v.cvvMatch then Yellow
    else Uncoloured
  }

  /** What each colour of a row says, whatever the record. */
  lemma ColoursMean(v: VerificationRecord)
    ensures RowColour(v) == Red <==> v.panError != NoProblem || v.cvvError != NoProblem
    ensures RowColour(v) == Green <==> v.panError == NoProblem && v.cvvError == NoProblem && v.panMatch && v.cvvMatch
    ensures RowColour(v) == Yellow <==>
            v.panError == NoProblem && v.cvvError == NoProblem && !(v.panMatch && v.cvvMatch)
  {
  }

  function Rows(vs: seq<VerificationRecord>, colour: Colour): set<nat> {
    set i: nat | i < |vs| && RowColour(vs[i]) == colour
  }

  datatype Summary = Summary(total: nat, perfect: nat, pan: nat, cvv: nat, errors: int)

  method Summarize(results: seq<VerificationRecord>) returns (s: Summary)
    ensures s.total == |results| && s.errors == s.total - s.perfect
    ensures s.perfect == |Counted(results, true, true)|
    ensures s.pan == |Counted(results, true, false)| && s.cvv == |Counted(results, false, true)|
  {
    var pan := CountMatches(results, true, false);
    var cvv := CountMatches(results, false, true);
    var perfect := CountMatches(results, true, true);
    s := Summary(|results|, perfect, pan, cvv, |results| - perfect);
  }

  function Positions(n: nat): (r: set<nat>)
    ensures |r| == n && forall i: nat :: i in r <==> i < n
  {
    if n == 0 then {} else Positions(n - 1) + {n - 1}
  }

  /** Every row has a colour; green rows are the perfect matches and the others the reported errors. */
  lemma ColoursPartition(vs: seq<VerificationRecord>)
    ensures Rows(vs, Uncoloured) == {}
    ensures Rows(vs, Green) == Counted(vs, true, true)
    ensures |Rows(vs, Red)| + |Rows(vs, Yellow)| == |vs| - |Counted(vs, true, true)|
  {
    EveryRowColoured(vs);
    ThreeParts(Rows(vs, Green), Rows(vs, Red), Rows(vs, Yellow));
  }

  lemma EveryRowColoured(vs: seq<VerificationRecord>)
    ensures Rows(vs, Uncoloured) == {}
    ensures Rows(vs, Green) == Counted(vs, true, true)
    ensures Rows(vs, Green) + Rows(vs, Red) + Rows(vs, Yellow) == Positions(|vs|)
  {
  }

  lemma ThreeParts<T>(a: set<T>, b: set<T>, c: set<T>)
    requires a !! b !! c
    ensures |a + b + c| == |a| + |b| + |c|
  {
    assert |a + b| == |a| + |b|;
  }

  /** The summary counts constrain each other. */
  lemma SummaryBounds(vs: seq<VerificationRecord>)
    ensures var pan, cvv, perfect := |Counted(vs, true, false)|, |Counted(vs, false, true)|, |Counted(vs, true, true)|;
            pan + cvv - |vs| <= perfect && perfect <= pan && perfect <= cvv
  {
    var p, q := Counted(vs, true, false), Counted(vs, false, true);
    var all := Positions(|vs|);
    assert Counted(vs, true, true) == p * q;
    assert |p + q| + |p * q| == |p| + |q|;
    SubsetSize(p + q, all);
    SubsetSize(p * q, p);
    SubsetSize(p * q, q);
  }

  lemma SubsetSize<T>(a: set<T>, b: set<T>)
    requires a <= b
    ensures |a| <= |b|
  {
    assert b == a + (b - a);
  }
}
