/** batchWriter with its one reused backing array, proved to cut what it receives into batches. */
module BatchWriter {
  import opened Records
  import opened Sequences

  /** The concatenation of those batches whose INSERT reported `want`; outcome(i) is the verdict on the i-th. */
  function Reported(batches: seq<seq<EncryptedRecord>>, outcome: nat -> bool, want: bool): seq<EncryptedRecord> {
    if batches == [] then []
    else
      var last := |batches| - 1;
      Reported(batches[..last], outcome, want) + if outcome(last) == want then batches[last] else []
  }

  /** inserts records the batch of every INSERT issued; table is what the destination has accepted. */
  class Writer {
    const batchSize: nat
    const buffer: array<EncryptedRecord>
    var length: nat
    var inserts: seq<seq<EncryptedRecord>>
    var table: seq<EncryptedRecord>
    var processed: nat
    var errors: nat

    ghost predicate Valid()
      reads this, buffer
    {
      0 < batchSize == buffer.Length && length <= batchSize
    }

    /** The slice batch[:length] of the backing array. */
    ghost function Batch(): seq<EncryptedRecord>
      requires Valid()
      reads this, buffer
    {
      buffer[..length]
    }

    /** Table and counters are those of the INSERTs issued so far. */
    ghost predicate Accounts(outcome: nat -> bool)
      reads this
    {
      && table == Reported(inserts, outcome, true)
      && processed == |table|
      && errors == |Reported(inserts, outcome, false)|
    }

    constructor (batchSize: nat)
      requires batchSize > 0
      ensures Valid() && fresh(buffer) && this.batchSize == batchSize && Batch() == []
      ensures inserts == [] && table == [] && processed == 0 && errors == 0
    {
      this.batchSize := batchSize;
      buffer := new EncryptedRecord[batchSize](_ => EncryptedRecord(0, "", "", []));
      length, inserts, table, processed, errors := 0, [], [], 0, 0;
    }

    /** append(batch, r): there is always room, so the backing array is never replaced. */
    method Append(r: EncryptedRecord)
      requires Valid() && length < batchSize
      modifies this`length, buffer
      ensures Valid() && Batch() == old(Batch()) + [r]
    {
      buffer[length] := r;
      length := length + 1;
    }

    method Flush(outcome: nat -> bool)
      requires Valid() && Accounts(outcome)
      modifies this
      ensures Valid() && Accounts(outcome) && Batch() == []
      ensures inserts == old(inserts) + (if old(Batch()) == [] then [] else [old(Batch())])
      ensures old(Batch()) != [] && outcome(|old(inserts)|) ==>
                table == old(table) + old(Batch())
                && processed == old(processed) + |old(Batch())| && errors == old(errors)
      ensures old(Batch()) != [] && !outcome(|old(inserts)|) ==>
                table == old(table) && processed == old(processed) && errors == old(errors) + |old(Batch())|
      ensures old(Batch()) == [] ==> table == old(table) && processed == old(processed) && errors == old(errors)
    {
      if length == 0 {
        return;
      }
      var batch := buffer[..length];
      ghost var before := inserts;
      if outcome(|inserts|) {
        table, processed := table + batch, processed + length;
      } else {
        errors := errors + length;
      }
      inserts := inserts + [batch];
      length := 0;
      assert inserts[..|inserts| - 1] == before;
    }

    /** The loop over the results channel, from a new writer until the channel is closed and empty. */
    method Run(received: seq<EncryptedRecord>, outcome: nat -> bool)
      requires Valid() && Batch() == [] && inserts == [] && table == [] && processed == 0 && errors == 0
      modifies this, buffer
      ensures Valid() && Batch() == []
      ensures inserts == Chunks(received, batchSize)
      ensures Accounts(outcome)
      ensures processed == |table| && processed + errors == |received|
      ensures (forall i: nat :: outcome(i)) ==> table == received && processed == |received| && errors == 0
      ensures (forall i: nat :: !outcome(i)) ==> table == [] && processed == 0 && errors == |received|
    {
      for i := 0 to |received|
        invariant Valid() && Accounts(outcome) && length < batchSize
        invariant Flatten(inserts) + Batch() == received[..i]
        invariant forall j :: 0 <= j < |inserts| ==> |inserts[j]| == batchSize
      {
        Receive(received[i], outcome);
        assert received[..i + 1] == received[..i] + [received[i]];
      }
      LastChunk(inserts, Batch(), batchSize);
      assert received[..|received|] == received;
      Flush(outcome);
      WriterAccountsForAll(received, batchSize, outcome);
      FlattenChunks(received, batchSize);
      AllOneWay(inserts, outcome, true);
      AllOneWay(inserts, outcome, false);
    }

    /** One turn of that loop. */
    method Receive(r: EncryptedRecord, outcome: nat -> bool)
      requires Valid() && Accounts(outcome) && length < batchSize
      modifies this, buffer
      ensures Valid() && Accounts(outcome) && length < batchSize
      ensures Flatten(inserts) + Batch() == old(Flatten(inserts) + Batch()) + [r]
      ensures inserts == old(inserts) || (exists b :: inserts == old(inserts) + [b] && |b| == batchSize)
    {
      Append(r);
      ghost var issued, batch := inserts, Batch();
      if length >= batchSize {
        Flush(outcome);
        FlattenAppend(issued, batch);
        assert inserts == issued + [batch];
      }
    }
  }

  /** When all INSERTs end the same way, one half is everything and the other nothing. */
  lemma {:induction false} AllOneWay(batches: seq<seq<EncryptedRecord>>, outcome: nat -> bool, verdict: bool)
    ensures (forall i: nat :: outcome(i) == verdict) ==>
              Reported(batches, outcome, verdict) == Flatten(batches) && Reported(batches, outcome, !verdict) == []
  {
    if batches != [] {
      var last := |batches| - 1;
      AllOneWay(batches[..last], outcome, verdict);
      FlattenAppend(batches[..last], batches[last]);
      assert batches[..last] + [batches[last]] == batches;
    }
  }

  /** A batch is among the stored exactly if its own INSERT succeeded; those before it give its place in the table. */
  lemma {:induction false} ReportedSplits(batches: seq<seq<EncryptedRecord>>, outcome: nat -> bool, i: nat)
    requires i < |batches|
    ensures outcome(i) ==>
              Reported(batches[..i], outcome, true) + batches[i] <= Reported(batches, outcome, true)
    ensures !outcome(i) ==>
              Reported(batches[..i], outcome, false) + batches[i] <= Reported(batches, outcome, false)
  {
    var last := |batches| - 1;
    if i < last {
      ReportedSplits(batches[..last], outcome, i);
      assert batches[..last][..i] == batches[..i];
    }
  }

  /** Stored rows and lost rows together are everything that was received. */
  lemma {:induction false} ReportedAdds(batches: seq<seq<EncryptedRecord>>, outcome: nat -> bool)
    ensures multiset(Reported(batches, outcome, true)) + multiset(Reported(batches, outcome, false))
            == multiset(Flatten(batches))
  {
    if batches != [] {
      var last := |batches| - 1;
      ReportedAdds(batches[..last], outcome);
      FlattenAppend(batches[..last], batches[last]);
      assert batches[..last] + [batches[last]] == batches;
    }
  }

  /** Over any input the counters of a finished writer add up to the records received. */
  lemma WriterAccountsForAll(received: seq<EncryptedRecord>, batchSize: nat, outcome: nat -> bool)
    requires batchSize > 0
    ensures var batches := Chunks(received, batchSize);
            |Reported(batches, outcome, true)| + |Reported(batches, outcome, false)| == |received|
  {
    var batches := Chunks(received, batchSize);
    ReportedAdds(batches, outcome);
    FlattenChunks(received, batchSize);
    assert |multiset(Reported(batches, outcome, true))| + |multiset(Reported(batches, outcome, false))|
           == |multiset(Flatten(batches))|;
  }
}
