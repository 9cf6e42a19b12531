/**
  The batch endpoint and its client together: the endpoint leaves failed items out of its results, and
  the client hands results out by position. When does every row end with its own ciphertext or none?
 */
module Alignment {
  import opened Basics
  import opened Aead
  import opened Base64
  import opened Sequences
  import opened Records
  import opened BatchPool
  import opened BatchHandler
  import opened SsisClient

  /** What the k-th row of a batch with these outcomes ends with. */
  function RowCell(outcomes: seq<Outcome>, k: nat): EncryptResponse {
    Cell(Answered(Entries(outcomes)), k)
  }

  /** Once an item has failed, so have all that follow it. */
  ghost predicate FailuresAreSuffix(outcomes: seq<Outcome>) {
    forall i, j :: 0 <= i < j < |outcomes| && !Delivered(outcomes[i]) ==> !Delivered(outcomes[j])
  }

  predicate IsOwn(cell: EncryptResponse, o: Outcome) {
    Delivered(o) && cell == Encoded(o.sealed)
  }

  predicate OwnOrBlank(cell: EncryptResponse, o: Outcome) {
    cell == BLANK || IsOwn(cell, o)
  }

  ghost predicate Aligned(outcomes: seq<Outcome>) {
    forall k :: 0 <= k < |outcomes| ==> OwnOrBlank(RowCell(outcomes, k), outcomes[k])
  }

  lemma {:induction false} EntriesConcat(a: seq<Outcome>, b: seq<Outcome>)
    ensures Entries(a + b) == Entries(a) + Entries(b)
  {
    if b == [] {
      assert a + b == a;
    } else {
      var last := |b| - 1;
      EntriesConcat(a, b[..last]);
      assert (a + b)[..|a + b| - 1] == a + b[..last];
    }
  }

  lemma AllDelivered(outcomes: seq<Outcome>)
    requires forall i :: 0 <= i < |outcomes| ==> Delivered(outcomes[i])
    ensures |Entries(outcomes)| == |outcomes|
    ensures forall k :: 0 <= k < |outcomes| ==> IsOwn(Entries(outcomes)[k], outcomes[k])
  {
    EveryItemAccountedFor(outcomes);
    NoMessages(outcomes);
    forall k: nat | k < |outcomes| ensures IsOwn(Entries(outcomes)[k], outcomes[k]) {
      DeliveredInPlace(outcomes, k);
    }
  }

  lemma {:induction false} NoMessages(outcomes: seq<Outcome>)
    requires forall i :: 0 <= i < |outcomes| ==> Delivered(outcomes[i])
    ensures Messages(outcomes) == []
  {
    if outcomes != [] {
      NoMessages(outcomes[..|outcomes| - 1]);
    }
  }

  lemma {:induction false} DeliveredInPlace(outcomes: seq<Outcome>, k: nat)
    requires k < |outcomes| == |Entries(outcomes)| && forall i :: 0 <= i < |outcomes| ==> Delivered(outcomes[i])
    ensures IsOwn(Entries(outcomes)[k], outcomes[k])
  {
    var last := |outcomes| - 1;
    assert Entries(outcomes) == Entries(outcomes[..last]) + [Encoded(outcomes[last].sealed)];
    if k < last {
      DeliveredInPlace(outcomes[..last], k);
    }
  }

  lemma {:induction false} NoneDelivered(outcomes: seq<Outcome>)
    requires forall i :: 0 <= i < |outcomes| ==> !Delivered(outcomes[i])
    ensures Entries(outcomes) == []
  {
    if outcomes != [] {
      NoneDelivered(outcomes[..|outcomes| - 1]);
    }
  }

  /** Every row before the first failed item gets its own ciphertext, whatever happens later. */
  lemma RowsBeforeFirstFailure(outcomes: seq<Outcome>, f: nat, k: nat)
    requires k < f <= |outcomes| && forall i :: 0 <= i < f ==> Delivered(outcomes[i])
    ensures IsOwn(RowCell(outcomes, k), outcomes[k])
  {
    EntriesConcat(outcomes[..f], outcomes[f..]);
    assert outcomes[..f] + outcomes[f..] == outcomes;
    AllDelivered(outcomes[..f]);
  }

  /** The row of the first failed item gets the ciphertext of the next item that did not fail. */
  lemma FirstFailedRowTakesNext(outcomes: seq<Outcome>, f: nat, s: nat)
    requires f < s < |outcomes| && forall i :: 0 <= i < f ==> Delivered(outcomes[i])
    requires Delivered(outcomes[s]) && forall i :: f <= i < s ==> !Delivered(outcomes[i])
    ensures RowCell(outcomes, f) == Encoded(outcomes[s].sealed)
  {
    var a, b, c := outcomes[..f], outcomes[f..s], outcomes[s..];
    assert a + b + c == outcomes;
    EntriesConcat(a, b);
    EntriesConcat(a + b, c);
    AllDelivered(a);
    NoneDelivered(b);
    assert c == [outcomes[s]] + c[1..];
    EntriesConcat([outcomes[s]], c[1..]);
    AllDelivered([outcomes[s]]);
  }

  /** The first failed item and the first delivered one after it, when failures are no suffix. */
  lemma FindGap(outcomes: seq<Outcome>) returns (f: nat, s: nat)
    requires !FailuresAreSuffix(outcomes)
    ensures f < s < |outcomes| && forall i :: 0 <= i < f ==> Delivered(outcomes[i])
    ensures Delivered(outcomes[s]) && forall i :: f <= i < s ==> !Delivered(outcomes[i])
  {
    var i, j :| 0 <= i < j < |outcomes| && !Delivered(outcomes[i]) && Delivered(outcomes[j]);
    f := 0;
    while Delivered(outcomes[f])
      invariant f <= i && forall k :: 0 <= k < f ==> Delivered(outcomes[k])
      decreases i - f
    {
      f := f + 1;
    }
    s := f + 1;
    while !Delivered(outcomes[s])
      invariant f < s <= j && forall k :: f <= k < s ==> !Delivered(outcomes[k])
      decreases j - s
    {
      s := s + 1;
    }
  }

  lemma SuffixIsAligned(outcomes: seq<Outcome>)
    requires FailuresAreSuffix(outcomes)
    ensures Aligned(outcomes)
  {
    forall k: nat | k < |outcomes| ensures OwnOrBlank(RowCell(outcomes, k), outcomes[k]) {
      if Delivered(outcomes[k]) {
        RowsBeforeFirstFailure(outcomes, k + 1, k);
      } else {
        EntriesConcat(outcomes[..k], outcomes[k..]);
        assert outcomes[..k] + outcomes[k..] == outcomes;
        NoneDelivered(outcomes[k..]);
        EveryItemAccountedFor(outcomes[..k]);
      }
    }
  }

  lemma DeliveredIsNotBlank(o: Outcome)
    requires Delivered(o)
    ensures Encoded(o.sealed) != BLANK
  {
    EncodeIsEmpty(o.sealed.ciphertext);
  }

  /** All rows of a batch end with their own ciphertext or blank exactly when the failed items are its last. */
  lemma AlignedIffFailuresAreSuffix(outcomes: seq<Outcome>)
    ensures Aligned(outcomes) <==> FailuresAreSuffix(outcomes)
  {
    if FailuresAreSuffix(outcomes) {
      SuffixIsAligned(outcomes);
    } else {
      var f, s := FindGap(outcomes);
      FirstFailedRowTakesNext(outcomes, f, s);
      DeliveredIsNotBlank(outcomes[s]);
      assert !OwnOrBlank(RowCell(outcomes, f), outcomes[f]);
    }
  }

  /** Every row ends with its own ciphertext exactly when no item failed. */
  lemma AllOwnIffNoneFailed(outcomes: seq<Outcome>)
    ensures (forall k :: 0 <= k < |outcomes| ==> IsOwn(RowCell(outcomes, k), outcomes[k])) <==>
            (forall k :: 0 <= k < |outcomes| ==> Delivered(outcomes[k]))
  {
    if forall k :: 0 <= k < |outcomes| ==> Delivered(outcomes[k]) {
      AllDelivered(outcomes);
    }
  }

  // ---------------------------------------------------------------- what the rows decrypt to

  /** Decrypting a row's two columns. */
  function OpenCell(k: Cipher, cell: EncryptResponse): Option<Bytes> {
    var ciphertext, nonce := Decode(cell.ciphertext), Decode(cell.nonce);
    if ciphertext.Some? && nonce.Some? then OpenSealed(k, Sealed(ciphertext.value, nonce.value)) else None
  }

  lemma EncodedOpens(k: Cipher, sealed: Sealed)
    ensures OpenCell(k, Encoded(sealed)) == OpenSealed(k, sealed)
  {
    RoundTrip(sealed.ciphertext);
    RoundTrip(sealed.nonce);
  }

  /** Each item failed, or was answered with an encryption of its own plaintext. */
  ghost predicate Honest(k: Cipher, plaintexts: seq<Bytes>, outcomes: seq<Outcome>) {
    && |plaintexts| == |outcomes|
    && forall i :: 0 <= i < |outcomes| && outcomes[i].Answer? ==>
         OpenSealed(k, outcomes[i].sealed) == Some(plaintexts[i]) && outcomes[i].sealed.ciphertext != []
  }

  /**
    For distinct PANs: no row ends with an encryption of another row's PAN exactly when the failed items
    are the last of their batch.
   */
  lemma NoForeignPanIffFailuresAreSuffix(k: Cipher, plaintexts: seq<Bytes>, outcomes: seq<Outcome>)
    requires Honest(k, plaintexts, outcomes)
    requires forall i, j :: 0 <= i < j < |plaintexts| ==> plaintexts[i] != plaintexts[j]
    ensures (forall i :: 0 <= i < |outcomes| ==>
               RowCell(outcomes, i) == BLANK || OpenCell(k, RowCell(outcomes, i)) == Some(plaintexts[i]))
            <==> FailuresAreSuffix(outcomes)
  {
    if FailuresAreSuffix(outcomes) {
      SuffixIsAligned(outcomes);
      forall i | 0 <= i < |outcomes|
        ensures RowCell(outcomes, i) == BLANK || OpenCell(k, RowCell(outcomes, i)) == Some(plaintexts[i])
      {
        assert OwnOrBlank(RowCell(outcomes, i), outcomes[i]);
        if Delivered(outcomes[i]) {
          EncodedOpens(k, outcomes[i].sealed);
        }
      }
    } else {
      var f, s := FindGap(outcomes);
      FirstFailedRowTakesNext(outcomes, f, s);
      DeliveredIsNotBlank(outcomes[s]);
      EncodedOpens(k, outcomes[s].sealed);
      assert RowCell(outcomes, f) != BLANK && OpenCell(k, RowCell(outcomes, f)) == Some(plaintexts[s]);
    }
  }

  // ---------------------------------------------------------------- whole executions

  /**
    The i-th request either gets no usable answer, or is answered by the endpoint, whose items come out as
    outcomes[i].
   */
  ghost predicate Answers(replies: nat -> BatchReply, batches: seq<seq<RowData>>, outcomes: seq<seq<Outcome>>) {
    && |outcomes| == |batches|
    && forall i :: 0 <= i < |batches| ==>
         replies(i).Unusable? || (|outcomes[i]| == |batches[i]| && replies(i) == Answered(Entries(outcomes[i])))
  }

  /** The k-th row of the i-th batch is blank or holds its own item's ciphertext; without an answer it is blank. */
  ghost predicate RowAligned(
      cells: map<Row, EncryptResponse>, row: Row, reply: BatchReply, outcomes: seq<Outcome>, k: nat)
  {
    && row in cells
    && (cells[row] == BLANK || (reply.Answered? && k < |outcomes| && IsOwn(cells[row], outcomes[k])))
  }

  /**
    A component run, some of whose requests may fail, leaves every row (each in an object of its own) with
    its own ciphertext or blank exactly when in every answered batch the failed items are the last.
   */
  lemma RunAlignedIffFailuresAreSuffixes(
      batchSize: int, inputs: seq<Input>, replies: nat -> BatchReply, outcomes: seq<seq<Outcome>>)
    requires Distinct(Map(AsBuffered(), inputs)) && Answers(replies, Batches(batchSize, inputs), outcomes)
    ensures var batches, cells := Batches(batchSize, inputs), Final(Batches(batchSize, inputs), replies);
            (forall i, k :: 0 <= i < |batches| && 0 <= k < |batches[i]| ==>
               RowAligned(cells, batches[i][k].row, replies(i), outcomes[i], k))
            <==> forall i :: 0 <= i < |batches| ==> replies(i).Unusable? || FailuresAreSuffix(outcomes[i])
  {
    var batches: seq<seq<RowData>> := Batches(batchSize, inputs);
    var cells := Final(batches, replies);
    FlattenChunks(Map(AsBuffered(), inputs), Limit(batchSize));
    forall i: nat | i < |batches|
      ensures (forall k :: 0 <= k < |batches[i]| ==>
                 RowAligned(cells, batches[i][k].row, replies(i), outcomes[i], k))
              <==> replies(i).Unusable? || FailuresAreSuffix(outcomes[i])
    {
      BatchAlignedIff(batches, replies, outcomes, i);
    }
  }

  lemma BatchAlignedIff(
      batches: seq<seq<RowData>>, replies: nat -> BatchReply, outcomes: seq<seq<Outcome>>, i: nat)
    requires i < |batches| && Distinct(Flatten(batches)) && Answers(replies, batches, outcomes)
    ensures var cells := Final(batches, replies);
            (forall k :: 0 <= k < |batches[i]| ==> RowAligned(cells, batches[i][k].row, replies(i), outcomes[i], k))
            <==> replies(i).Unusable? || FailuresAreSuffix(outcomes[i])
  {
    var cells := Final(batches, replies);
    forall k: nat | k < |batches[i]|
      ensures batches[i][k].row in cells && cells[batches[i][k].row] == Cell(replies(i), k)
    {
      DistinctRowsAreUsedOnce(batches, i, k);
      EveryRowHasItsCell(batches, replies, i, k);
    }
    if replies(i).Answered? {
      AlignedIffFailuresAreSuffix(outcomes[i]);
      assert forall k: nat :: k < |batches[i]| ==>
        (RowAligned(cells, batches[i][k].row, replies(i), outcomes[i], k) <==>
         OwnOrBlank(RowCell(outcomes[i], k), outcomes[i][k]));
    }
  }
}
