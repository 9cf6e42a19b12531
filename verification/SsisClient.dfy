/**
  The batch mode of the SSIS component: rows are buffered, sent in batches, and the answer is written
  back into the rows by position. Rows are objects, as they are for the component; the runtime may hand
  it the same object again, holding the next row.
 */
module SsisClient {
  import opened Basics
  import opened Sequences
  import opened BatchHandler

  /** A pipeline row: its PAN column (None when null) and the two columns the component writes. */
  class Row {
    var pan: Option<string>
    var encryptedPan: string
    var panNonce: string

    constructor (pan: Option<string>)
      ensures this.pan == pan
    {
      this.pan := pan;
      encryptedPan, panNonce := "", "";
    }

    /** The two assignments that fill the output columns. */
    method Set(ciphertext: string, nonce: string)
      modifies this`encryptedPan, this`panNonce
      ensures encryptedPan == ciphertext && panNonce == nonce
    {
      encryptedPan, panNonce := ciphertext, nonce;
    }
  }

  /** A row object and the PAN it had when it was buffered. */
  datatype RowData = RowData(row: Row, pan: string)

  /** One call of the runtime: the row object it passes and the PAN column this then holds. */
  datatype Input = Input(row: Row, pan: Option<string>)

  /** Unusable: the call failed, its status was no success, or its body held no results. */
  datatype BatchReply = Unusable | Answered(results: seq<EncryptResponse>)

  const BLANK := EncryptResponse("", "")

  /** What the k-th row of a batch is to hold afterwards. */
  function Cell(reply: BatchReply, k: nat): EncryptResponse {
    if reply.Answered? && k < |reply.results| then reply.results[k] else BLANK
  }

  /** The row as it is buffered: a null PAN becomes the empty text. */
  function Buffered(i: Input): RowData {
    RowData(i.row, if i.pan.Some? then i.pan.value else "")
  }

  function AsBuffered(): Input -> RowData {
    (i: Input) => Buffered(i)
  }

  function PlaintextOf(): RowData -> string {
    (d: RowData) => d.pan
  }

  ghost predicate HoldsCell(row: Row, cell: EncryptResponse)
    reads row
  {
    row.encryptedPan == cell.ciphertext && row.panNonce == cell.nonce
  }

  /** What writing the first n cells leaves in the rows: a row used twice keeps the later cell. */
  ghost function Assigned(batch: seq<RowData>, n: nat, reply: BatchReply): map<Row, EncryptResponse>
    requires n <= |batch|
  {
    if n == 0 then map[] else Assigned(batch, n - 1, reply)[batch[n - 1].row := Cell(reply, n - 1)]
  }

  /** What a whole run leaves in the rows, replies(i) being the answer for the i-th batch. */
  ghost function Final(batches: seq<seq<RowData>>, replies: nat -> BatchReply): map<Row, EncryptResponse> {
    if batches == [] then map[]
    else
      var last := |batches| - 1;
      Final(batches[..last], replies) + Assigned(batches[last], |batches[last]|, replies(last))
  }

  ghost predicate HoldCells(cells: map<Row, EncryptResponse>)
    reads cells.Keys
  {
    forall r :: r in cells ==> HoldsCell(r, cells[r])
  }

  ghost function RowsOf(batch: seq<RowData>): set<Row> {
    set i | 0 <= i < |batch| :: batch[i].row
  }

  lemma {:induction false} AssignedKeys(batch: seq<RowData>, n: nat, reply: BatchReply)
    requires n <= |batch|
    ensures Assigned(batch, n, reply).Keys == RowsOf(batch[..n])
  {
    if n > 0 {
      AssignedKeys(batch, n - 1, reply);
      assert batch[..n] == batch[..n - 1] + [batch[n - 1]];
      OneMoreInSet(batch[..n - 1], batch[n - 1]);
    }
  }

  lemma OneMoreInSet(batch: seq<RowData>, d: RowData)
    ensures RowsOf(batch + [d]) == RowsOf(batch) + {d.row}
  {
    forall r | r in RowsOf(batch) + {d.row} ensures r in RowsOf(batch + [d]) {
      if r == d.row {
        assert (batch + [d])[|batch|].row == r;
      } else {
        var i :| 0 <= i < |batch| && batch[i].row == r;
        assert (batch + [d])[i].row == r;
      }
    }
  }

  /** The loop over the batch that hands out the results by position and blanks what is left. */
  method WriteBack(batch: seq<RowData>, results: seq<EncryptResponse>)
    modifies RowsOf(batch)`encryptedPan, RowsOf(batch)`panNonce
    ensures HoldCells(Assigned(batch, |batch|, Answered(results)))
    ensures forall k :: 0 <= k < |batch| && (forall l :: k < l < |batch| ==> batch[l].row != batch[k].row) ==>
              && batch[k].row.encryptedPan == (if k < |results| then results[k].ciphertext else "")
              && batch[k].row.panNonce == (if k < |results| then results[k].nonce else "")
  {
    var resultIndex := 0;
    for k := 0 to |batch|
      invariant resultIndex == if k < |results| then k else |results|
      invariant HoldCells(Assigned(batch, k, Answered(results)))
    {
      AssignedKeys(batch, k, Answered(results));
      assert batch[k].row in RowsOf(batch);
      if resultIndex < |results| {
        batch[k].row.Set(results[resultIndex].ciphertext, results[resultIndex].nonce);
        resultIndex := resultIndex + 1;
      } else {
        batch[k].row.Set("", "");
      }
    }
    LastUsesHold(batch, Answered(results));
  }

  /** Each last use of a row object in the batch left its cell there. */
  lemma LastUsesHold(batch: seq<RowData>, reply: BatchReply)
    requires HoldCells(Assigned(batch, |batch|, reply))
    ensures forall k :: 0 <= k < |batch| && (forall l :: k < l < |batch| ==> batch[l].row != batch[k].row) ==>
              HoldsCell(batch[k].row, Cell(reply, k))
  {
    forall k: nat | k < |batch| && (forall l :: k < l < |batch| ==> batch[l].row != batch[k].row)
      ensures HoldsCell(batch[k].row, Cell(reply, k))
    {
      AssignedAtLastUse(batch, |batch|, reply, k);
    }
  }

  method BlankAll(batch: seq<RowData>)
    modifies RowsOf(batch)`encryptedPan, RowsOf(batch)`panNonce
    ensures HoldCells(Assigned(batch, |batch|, Unusable))
    ensures forall k :: 0 <= k < |batch| ==> batch[k].row.encryptedPan == "" && batch[k].row.panNonce == ""
  {
    for k := 0 to |batch|
      invariant HoldCells(Assigned(batch, k, Unusable))
      invariant forall l :: 0 <= l < k ==> batch[l].row.encryptedPan == "" && batch[l].row.panNonce == ""
    {
      AssignedKeys(batch, k, Unusable);
      assert batch[k].row in RowsOf(batch);
      batch[k].row.Set("", "");
    }
  }

  /** Writing an answer back adds the batch's cells to what the rows hold, over what they held before. */
  method Deliver(batch: seq<RowData>, reply: BatchReply, ghost held: map<Row, EncryptResponse>)
    requires HoldCells(held)
    modifies RowsOf(batch)`encryptedPan, RowsOf(batch)`panNonce
    ensures HoldCells(held + Assigned(batch, |batch|, reply))
  {
    match reply {
      case Answered(results) => WriteBack(batch, results);
      case Unusable => BlankAll(batch);
    }
    AssignedKeys(batch, |batch|, reply);
    assert batch[..|batch|] == batch;
  }

  /** The length at which the buffer is sent: the configured size, but a row is always added first. */
  function Limit(batchSize: int): nat {
    if batchSize < 1 then 1 else batchSize
  }

  /**
    requests records what has been posted. The ghost fields record the rows each request was made for,
    and what has been written into the rows so far.
   */
  class Component {
    const batchSize: int
    var batchBuffer: seq<RowData>
    var requests: seq<seq<string>>
    ghost var batches: seq<seq<RowData>>
    ghost var written: map<Row, EncryptResponse>

    /** Every request is the plaintexts of its batch. */
    ghost predicate Consistent()
      reads this
    {
      |requests| == |batches| && forall i :: 0 <= i < |batches| ==> requests[i] == Map(PlaintextOf(), batches[i])
    }

    ghost predicate Valid()
      reads this
    {
      && Consistent()
      && |batchBuffer| < Limit(batchSize)
      && (forall i :: 0 <= i < |batches| ==> |batches[i]| == Limit(batchSize))
    }

    constructor (batchSize: int)
      ensures Valid() && this.batchSize == batchSize
      ensures batchBuffer == [] && requests == [] && batches == [] && written == map[]
    {
      this.batchSize := batchSize;
      batchBuffer, requests, batches, written := [], [], [], map[];
    }

    /** Posts the buffer and writes the answer back; the buffer itself is left as it is. */
    method ProcessBatch(reply: BatchReply)
      requires Consistent() && HoldCells(written)
      modifies this`requests, this`batches, this`written
      modifies RowsOf(batchBuffer)`encryptedPan, RowsOf(batchBuffer)`panNonce
      ensures Consistent() && HoldCells(written)
      ensures batchBuffer == [] ==> batches == old(batches) && written == old(written)
      ensures batchBuffer != [] ==>
                batches == old(batches) + [batchBuffer]
                && written == old(written) + Assigned(batchBuffer, |batchBuffer|, reply)
      ensures batchBuffer == [] ==> requests == old(requests)
      ensures batchBuffer != [] ==>
                && |requests| == |old(requests)| + 1 && requests[..|old(requests)|] == old(requests)
                && |requests[|old(requests)|]| == |batchBuffer|
                && forall k :: 0 <= k < |batchBuffer| ==> requests[|old(requests)|][k] == batchBuffer[k].pan
    {
      if |batchBuffer| == 0 {
        return;
      }
      MapIndexes(PlaintextOf(), batchBuffer);
      requests := requests + [Map(PlaintextOf(), batchBuffer)];
      Deliver(batchBuffer, reply, written);
      batches, written := batches + [batchBuffer], written + Assigned(batchBuffer, |batchBuffer|, reply);
    }

    /** Buffers the row and sends a full buffer; reply is the answer to the request this makes, if any. */
    method ProcessRowInBatch(row: Row, reply: BatchReply)
      requires Valid() && HoldCells(written)
      modifies this
      modifies row`encryptedPan, row`panNonce, RowsOf(batchBuffer)`encryptedPan, RowsOf(batchBuffer)`panNonce
      ensures Valid() && HoldCells(written)
      ensures var full := old(batchBuffer) + [RowData(row, if old(row.pan).Some? then old(row.pan).value else "")];
              if |full| < Limit(batchSize) then
                batchBuffer == full && batches == old(batches) && written == old(written)
              else
                batchBuffer == [] && batches == old(batches) + [full]
                && written == old(written) + Assigned(full, |full|, reply)
    {
      ghost var before := batchBuffer;
      var added := RowData(row, if row.pan.Some? then row.pan.value else "");
      batchBuffer := batchBuffer + [added];
      OneMoreInSet(before, added);
      if |batchBuffer| >= batchSize {
        ProcessBatch(reply);
        batchBuffer := [];
      }
    }

    /** Sends what is left. The buffer is not cleared: the component is finished. */
    method PostExecute(reply: BatchReply)
      requires Valid() && HoldCells(written)
      modifies this`requests, this`batches, this`written
      modifies RowsOf(batchBuffer)`encryptedPan, RowsOf(batchBuffer)`panNonce
      ensures Consistent() && HoldCells(written)
      ensures batchBuffer == [] ==> batches == old(batches) && written == old(written)
      ensures batchBuffer != [] ==>
                batches == old(batches) + [batchBuffer]
                && written == old(written) + Assigned(batchBuffer, |batchBuffer|, reply)
    {
      if |batchBuffer| > 0 {
        ProcessBatch(reply);
      }
    }
  }

  ghost function RowsIn(inputs: seq<Input>): set<Row> {
    set i | 0 <= i < |inputs| :: inputs[i].row
  }

  /** The batches of a whole run: the rows as they are buffered, cut to the batch size. */
  ghost function Batches(batchSize: int, inputs: seq<Input>): seq<seq<RowData>> {
    Chunks(Map(AsBuffered(), inputs), Limit(batchSize))
  }

  /**
    A whole execution over these inputs, replies(i) being the answer to the i-th request: the requests are
    the inputs' PANs cut into batches, none missing and none sent twice, and the rows hold what they were sent.
   */
  method Execute(batchSize: int, inputs: seq<Input>, replies: nat -> BatchReply) returns (requests: seq<seq<string>>)
    modifies RowsIn(inputs)
    ensures |Flatten(requests)| == |inputs|
    ensures forall k :: 0 <= k < |inputs| ==>
              Flatten(requests)[k] == if inputs[k].pan.Some? then inputs[k].pan.value else ""
    ensures forall i :: 0 <= i < |requests| ==> 1 <= |requests[i]| <= if batchSize < 1 then 1 else batchSize
    ensures forall i :: 0 <= i < |requests| - 1 ==> |requests[i]| == if batchSize < 1 then 1 else batchSize
    ensures forall k :: 0 <= k < |inputs| && NotUsedAgain(inputs, k) ==>
              var b := if batchSize < 1 then 1 else batchSize;
              var reply, place := replies(PieceOf(k, b)), PlaceIn(k, b);
              if reply.Answered? && place < |reply.results| then
                inputs[k].row.encryptedPan == reply.results[place].ciphertext
                && inputs[k].row.panNonce == reply.results[place].nonce
              else inputs[k].row.encryptedPan == "" && inputs[k].row.panNonce == ""
  {
    requests := ProcessAll(batchSize, inputs, replies);
    RequestsAreInputs(batchSize, inputs, requests);
    RowsHoldCells(batchSize, inputs, replies);
  }

  /** The row object of input k is not handed over again. */
  ghost predicate NotUsedAgain(inputs: seq<Input>, k: nat)
    requires k < |inputs|
  {
    forall j :: k < j < |inputs| ==> inputs[j].row != inputs[k].row
  }

  lemma RequestsAreInputs(batchSize: int, inputs: seq<Input>, requests: seq<seq<string>>)
    requires |requests| == |Batches(batchSize, inputs)|
    requires forall i :: 0 <= i < |requests| ==> requests[i] == Map(PlaintextOf(), Batches(batchSize, inputs)[i])
    ensures |Flatten(requests)| == |inputs|
    ensures forall k :: 0 <= k < |inputs| ==>
              Flatten(requests)[k] == if inputs[k].pan.Some? then inputs[k].pan.value else ""
    ensures forall i :: 0 <= i < |requests| ==> 1 <= |requests[i]| <= Limit(batchSize)
    ensures forall i :: 0 <= i < |requests| - 1 ==> |requests[i]| == Limit(batchSize)
  {
    var rows := Map(AsBuffered(), inputs);
    var batches: seq<seq<RowData>> := Batches(batchSize, inputs);
    FlattenChunks(rows, Limit(batchSize));
    ChunksAreChunking(rows, Limit(batchSize));
    FlattenMap(PlaintextOf(), batches, requests);
    MapIndexes(AsBuffered(), inputs);
    MapIndexes(PlaintextOf(), rows);
    forall i | 0 <= i < |requests| ensures |requests[i]| == |batches[i]| {
      MapLength(PlaintextOf(), batches[i]);
    }
  }

  lemma RowsHoldCells(batchSize: int, inputs: seq<Input>, replies: nat -> BatchReply)
    requires HoldCells(Final(Batches(batchSize, inputs), replies))
    ensures forall k :: 0 <= k < |inputs| && NotUsedAgain(inputs, k) ==>
              HoldsCell(inputs[k].row, Cell(replies(PieceOf(k, Limit(batchSize))), PlaceIn(k, Limit(batchSize))))
  {
    var b := Limit(batchSize);
    forall k: nat | k < |inputs| && NotUsedAgain(inputs, k)
      ensures HoldsCell(inputs[k].row, Cell(replies(PieceOf(k, b)), PlaceIn(k, b)))
    {
      InputHasPlace(batchSize, inputs, k);
      RowHoldsCell(Batches(batchSize, inputs), replies, PieceOf(k, b), PlaceIn(k, b), inputs[k].row);
    }
  }

  lemma RowHoldsCell(batches: seq<seq<RowData>>, replies: nat -> BatchReply, i: nat, p: nat, row: Row)
    requires HoldCells(Final(batches, replies))
    requires i < |batches| && p < |batches[i]| && batches[i][p].row == row && LastUse(batches, i, p)
    ensures HoldsCell(row, Cell(replies(i), p))
  {
    EveryRowHasItsCell(batches, replies, i, p);
  }

  /** Input k has its place among the batches, and that is the last use of its object if it is not used again. */
  lemma InputHasPlace(batchSize: int, inputs: seq<Input>, k: nat)
    requires k < |inputs| && NotUsedAgain(inputs, k)
    ensures var batches: seq<seq<RowData>>, i, p :=
              Batches(batchSize, inputs), PieceOf(k, Limit(batchSize)), PlaceIn(k, Limit(batchSize));
            && i < |batches| && p < |batches[i]| && batches[i][p].row == inputs[k].row
            && LastUse(batches, i, p)
  {
    var rows := Map(AsBuffered(), inputs);
    RowsAreInputs(inputs);
    PlaceOf(rows, Limit(batchSize), k);
    PieceAndPlace(k, Limit(batchSize));
    PlaceIsLastUse(rows, Limit(batchSize), PieceOf(k, Limit(batchSize)), PlaceIn(k, Limit(batchSize)));
  }

  lemma RowsAreInputs(inputs: seq<Input>)
    ensures var rows := Map(AsBuffered(), inputs);
            |rows| == |inputs| && forall j :: 0 <= j < |inputs| ==> rows[j].row == inputs[j].row
  {
    MapIndexes(AsBuffered(), inputs);
  }

  lemma PlaceIsLastUse(rows: seq<RowData>, b: nat, i: nat, p: nat)
    requires b > 0 && i < |Chunks(rows, b)| && p < |Chunks(rows, b)[i]| && Start(i, b) + p < |rows|
    requires forall j :: Start(i, b) + p < j < |rows| ==> rows[j].row != rows[Start(i, b) + p].row
    ensures LastUse(Chunks(rows, b), i, p)
  {
    var batches: seq<seq<RowData>> := Chunks(rows, b);
    forall l: nat | p < l < |batches[i]| ensures batches[i][l].row != batches[i][p].row {
      LaterDiffers(rows, b, i, p, i, l);
    }
    forall j: nat | i < j < |batches| ensures batches[i][p].row !in RowsOf(batches[j]) {
      forall l: nat | l < |batches[j]| ensures batches[j][l].row != batches[i][p].row {
        LaterDiffers(rows, b, i, p, j, l);
      }
    }
  }

  lemma LaterDiffers(rows: seq<RowData>, b: nat, i: nat, p: nat, j: nat, l: nat)
    requires b > 0 && i < |Chunks(rows, b)| && p < |Chunks(rows, b)[i]| && Start(i, b) + p < |rows|
    requires forall k :: Start(i, b) + p < k < |rows| ==> rows[k].row != rows[Start(i, b) + p].row
    requires j < |Chunks(rows, b)| && l < |Chunks(rows, b)[j]| && (j > i || (j == i && l > p))
    ensures Chunks(rows, b)[j][l].row != Chunks(rows, b)[i][p].row
  {
    ChunkPlace(rows, b, i, p);
    ChunkPlace(rows, b, j, l);
    if j > i {
      StartsGrow(i, j, b);
    }
  }

  /** The calls of the runtime, one an input, and the end of the input. */
  method ProcessAll(
      batchSize: int, inputs: seq<Input>, replies: nat -> BatchReply) returns (requests: seq<seq<string>>)
    modifies RowsIn(inputs)
    ensures |requests| == |Batches(batchSize, inputs)|
    ensures forall i :: 0 <= i < |requests| ==> requests[i] == Map(PlaintextOf(), Batches(batchSize, inputs)[i])
    ensures HoldCells(Final(Batches(batchSize, inputs), replies))
  {
    var component := new Component(batchSize);
    for k := 0 to |inputs|
      invariant fresh(component) && component.Valid() && component.batchSize == batchSize
      invariant Flatten(component.batches) + component.batchBuffer == Map(AsBuffered(), inputs[..k])
      invariant HoldCells(component.written) && component.written == Final(component.batches, replies)
    {
      Feed(component, inputs, k, replies);
    }
    assert inputs[..|inputs|] == inputs;
    Finish(component, inputs, replies);
    return component.requests;
  }

  /** The runtime moves to the input after the first k and passes its row object. */
  method Feed(component: Component, inputs: seq<Input>, k: nat, replies: nat -> BatchReply)
    requires component.Valid() && k < |inputs|
    requires Flatten(component.batches) + component.batchBuffer == Map(AsBuffered(), inputs[..k])
    requires HoldCells(component.written) && component.written == Final(component.batches, replies)
    modifies component, RowsIn(inputs)
    ensures component.Valid()
    ensures Flatten(component.batches) + component.batchBuffer == Map(AsBuffered(), inputs[..k + 1])
    ensures HoldCells(component.written) && component.written == Final(component.batches, replies)
  {
    var input := inputs[k];
    assert input.row in RowsIn(inputs);
    BufferedRowsAreInputs(component.batches, component.batchBuffer, inputs, k);
    ghost var batches, buffer := component.batches, component.batchBuffer;
    input.row.pan := input.pan;
    component.ProcessRowInBatch(input.row, replies(|component.requests|));
    OneMoreRow(batches, buffer, inputs, k);
    OneMoreBatch(batches, buffer + [Buffered(inputs[k])], replies);
  }

  /** The end of the input: what is left is sent. */
  method Finish(component: Component, inputs: seq<Input>, replies: nat -> BatchReply)
    requires component.Valid()
    requires Flatten(component.batches) + component.batchBuffer == Map(AsBuffered(), inputs)
    requires HoldCells(component.written) && component.written == Final(component.batches, replies)
    modifies component, RowsIn(inputs)
    ensures component.Consistent() && component.batches == Batches(component.batchSize, inputs)
    ensures HoldCells(component.written) && component.written == Final(component.batches, replies)
  {
    ghost var batches, batch := component.batches, component.batchBuffer;
    assert inputs[..|inputs|] == inputs;
    BufferedRowsAreInputs(batches, batch, inputs, |inputs|);
    LastChunk(batches, batch, Limit(component.batchSize));
    OneMoreBatch(batches, batch, replies);
    component.PostExecute(replies(|component.requests|));
  }

  /** What is buffered or sent next extends what has been buffered so far by one row. */
  lemma OneMoreRow(batches: seq<seq<RowData>>, buffer: seq<RowData>, inputs: seq<Input>, k: nat)
    requires k < |inputs| && Flatten(batches) + buffer == Map(AsBuffered(), inputs[..k])
    ensures var full := buffer + [Buffered(inputs[k])];
            && Flatten(batches) + full == Map(AsBuffered(), inputs[..k + 1])
            && Flatten(batches + [full]) + [] == Map(AsBuffered(), inputs[..k + 1])
  {
    var full := buffer + [Buffered(inputs[k])];
    FlattenAppend(batches, full);
    assert inputs[..k + 1] == inputs[..k] + [inputs[k]];
    MapAppend(AsBuffered(), inputs[..k], inputs[k]);
    assert Flatten(batches) + full == Flatten(batches) + buffer + [Buffered(inputs[k])];
  }

  lemma OneMoreBatch(batches: seq<seq<RowData>>, batch: seq<RowData>, replies: nat -> BatchReply)
    ensures Final(batches + [batch], replies) == Final(batches, replies) + Assigned(batch, |batch|, replies(|batches|))
  {
    assert (batches + [batch])[..|batches|] == batches;
  }

  lemma BufferedRowsAreInputs(batches: seq<seq<RowData>>, buffer: seq<RowData>, inputs: seq<Input>, k: nat)
    requires k <= |inputs| && Flatten(batches) + buffer == Map(AsBuffered(), inputs[..k])
    ensures RowsOf(buffer) <= RowsIn(inputs)
  {
    var sent := Flatten(batches);
    MapIndexes(AsBuffered(), inputs[..k]);
    forall q | 0 <= q < |buffer| ensures buffer[q].row in RowsIn(inputs) {
      assert buffer[q] == (sent + buffer)[|sent| + q] == Buffered(inputs[|sent| + q]);
    }
  }

  // ---------------------------------------------------------------- what each row ends with

  /** After its k-th place in the i-th batch the row object is not used again. */
  ghost predicate LastUse(batches: seq<seq<RowData>>, i: nat, k: nat)
    requires i < |batches| && k < |batches[i]|
  {
    && (forall l :: k < l < |batches[i]| ==> batches[i][l].row != batches[i][k].row)
    && (forall j :: i < j < |batches| ==> batches[i][k].row !in RowsOf(batches[j]))
  }

  lemma {:induction false} AssignedAtLastUse(batch: seq<RowData>, n: nat, reply: BatchReply, k: nat)
    requires k < n <= |batch| && forall l :: k < l < n ==> batch[l].row != batch[k].row
    ensures batch[k].row in Assigned(batch, n, reply) && Assigned(batch, n, reply)[batch[k].row] == Cell(reply, k)
  {
    if k < n - 1 {
      AssignedAtLastUse(batch, n - 1, reply, k);
    }
  }

  /** A row ends with the cell of its last use, whichever objects the runtime passes. */
  lemma {:induction false} EveryRowHasItsCell(batches: seq<seq<RowData>>, replies: nat -> BatchReply, i: nat, k: nat)
    requires i < |batches| && k < |batches[i]| && LastUse(batches, i, k)
    ensures batches[i][k].row in Final(batches, replies)
    ensures Final(batches, replies)[batches[i][k].row] == Cell(replies(i), k)
  {
    var last := |batches| - 1;
    if i == last {
      AssignedAtLastUse(batches[last], |batches[last]|, replies(last), k);
    } else {
      assert LastUse(batches[..last], i, k);
      EveryRowHasItsCell(batches[..last], replies, i, k);
      AssignedKeys(batches[last], |batches[last]|, replies(last));
      assert batches[last][..|batches[last]|] == batches[last];
    }
  }

  ghost predicate Distinct(rows: seq<RowData>) {
    forall i, j :: 0 <= i < j < |rows| ==> rows[i].row != rows[j].row
  }

  /** When every row comes in an object of its own, every use is a last use. */
  lemma {:induction false} DistinctRowsAreUsedOnce(batches: seq<seq<RowData>>, i: nat, k: nat)
    requires Distinct(Flatten(batches)) && i < |batches| && k < |batches[i]|
    ensures LastUse(batches, i, k)
  {
    var first, rest := batches[0], batches[1..];
    var all := Flatten(batches);
    assert all == first + Flatten(rest);
    assert forall l :: 0 <= l < |first| ==> all[l] == first[l];
    assert forall l :: 0 <= l < |Flatten(rest)| ==> all[|first| + l] == Flatten(rest)[l];
    if i > 0 {
      DistinctRowsAreUsedOnce(rest, i - 1, k);
      forall j | i < j < |batches| ensures batches[i][k].row !in RowsOf(batches[j]) {
        assert batches[j] == rest[j - 1];
      }
    } else {
      forall j: nat | 0 < j < |batches| ensures batches[i][k].row !in RowsOf(batches[j]) {
        forall l | 0 <= l < |batches[j]| ensures batches[j][l].row != first[k].row {
          FlattenMember(rest, j - 1, batches[j][l]);
          var p :| 0 <= p < |Flatten(rest)| && Flatten(rest)[p] == batches[j][l];
          assert all[|first| + p] == batches[j][l];
        }
      }
    }
  }

  lemma {:induction false} FlattenMember<T>(ss: seq<seq<T>>, i: nat, e: T)
    requires i < |ss| && e in ss[i]
    ensures e in Flatten(ss)
  {
    if i > 0 {
      FlattenMember(ss[1..], i - 1, e);
    }
  }

  /**
    No request is empty, and none exceeds what the batch endpoint admits exactly when the batch size does
    not (100 as shipped) or there are too few rows for it to matter.
   */
  lemma AllAdmittedIff(batchSize: int, inputs: seq<Input>)
    ensures var batches := Batches(batchSize, inputs);
            && (forall i :: 0 <= i < |batches| ==> 1 <= |batches[i]|)
            && ((forall i :: 0 <= i < |batches| ==> |batches[i]| <= MAX_ITEMS) <==>
                batchSize <= MAX_ITEMS || |inputs| <= MAX_ITEMS)
  {
    var rows, batches := Map(AsBuffered(), inputs), Batches(batchSize, inputs);
    MapLength(AsBuffered(), inputs);
    ChunksAreChunking(rows, Limit(batchSize));
    if |inputs| <= MAX_ITEMS {
      FlattenChunks(rows, Limit(batchSize));
      forall i: nat | i < |batches| ensures |batches[i]| <= MAX_ITEMS {
        PartIsShorter(batches, i);
      }
    } else if batchSize > MAX_ITEMS {
      assert |batches[0]| > MAX_ITEMS;
    }
  }

  lemma {:induction false} PartIsShorter<T>(ss: seq<seq<T>>, i: nat)
    requires i < |ss|
    ensures |ss[i]| <= |Flatten(ss)|
  {
    if i > 0 {
      PartIsShorter(ss[1..], i - 1);
    }
  }
}
