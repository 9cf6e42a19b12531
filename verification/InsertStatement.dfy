/**
  The multi-row INSERT of insertBatch: placeholder text and parameters built in one pass. The text up
  to VALUES, which depends on the driver, is the parameter head.
 */
module InsertStatement {
  import opened Basics
  import opened Records

  datatype Param = Number(n: int) | Text(s: string) | Raw(b: Bytes)

  const GROUP := "(?, ?, ?, ?)"

  function RowOf(r: EncryptedRecord): seq<Param> {
    [Number(r.sourceId), Text(r.pan), Text(r.cvv), Raw(r.other)]
  }

  function Rows(batch: seq<EncryptedRecord>): seq<seq<Param>> {
    if batch == [] then [] else [RowOf(batch[0])] + Rows(batch[1..])
  }

  function ParamsOf(batch: seq<EncryptedRecord>): seq<Param> {
    if batch == [] then [] else RowOf(batch[0]) + ParamsOf(batch[1..])
  }

  /** n parenthesised groups separated by commas. */
  function Groups(n: nat): string {
    if n == 0 then "" else if n == 1 then GROUP else GROUP + "," + Groups(n - 1)
  }

  datatype Statement = Statement(query: string, params: seq<Param>)

  /** What is handed to db.Exec, if anything, and what the call then reports. accepted is the driver's verdict. */
  method InsertBatch(
      head: string, batch: seq<EncryptedRecord>, accepted: bool) returns (sent: Option<Statement>, ok: bool)
    ensures batch == [] ==> sent == None && ok
    ensures batch != [] ==> sent == Some(Statement(head + Groups(|batch|), ParamsOf(batch))) && ok == accepted
    ensures batch != [] ==> |sent.value.params| == 4 * |batch|
    ensures batch != [] ==> forall i :: 0 <= i < |batch| ==>
              && sent.value.params[4 * i] == Number(batch[i].sourceId)
              && sent.value.params[4 * i + 1] == Text(batch[i].pan)
              && sent.value.params[4 * i + 2] == Text(batch[i].cvv)
              && sent.value.params[4 * i + 3] == Raw(batch[i].other)
    ensures batch != [] ==> |sent.value.query| == |head| + 13 * |batch| - 1 && sent.value.query[..|head|] == head
    ensures batch != [] ==> forall i :: 0 <= i < |batch| ==> HasGroup(sent.value.query, |head| + 13 * i)
    ensures batch != [] ==> forall i {:trigger HasGroup(sent.value.query, |head| + 13 * i)} ::
              0 <= i < |batch| - 1 ==> sent.value.query[|head| + 13 * i + 12] == ','
  {
    if |batch| == 0 {
      return None, true;
    }
    ParamsInOrder(batch);
    TextIsGroups(head, |batch|);
    var query := head;
    var params: seq<Param> := [];
    for i := 0 to |batch|
      invariant query == head + Groups(i)
      invariant params == ParamsOf(batch[..i])
    {
      if i > 0 {
        query := query + ",";
      }
      query := query + GROUP;
      params := params + RowOf(batch[i]);
      GroupsAtEnd(i);
      NextParams(batch, i);
    }
    assert batch[..|batch|] == batch;
    return Some(Statement(query, params)), accepted;
  }

  /** The four parameters of record i, literally. */
  lemma {:induction false} ParamsAt(batch: seq<EncryptedRecord>, i: nat)
    requires i < |batch|
    ensures |ParamsOf(batch)| == 4 * |batch|
    ensures ParamsOf(batch)[4 * i] == Number(batch[i].sourceId) && ParamsOf(batch)[4 * i + 1] == Text(batch[i].pan)
    ensures ParamsOf(batch)[4 * i + 2] == Text(batch[i].cvv) && ParamsOf(batch)[4 * i + 3] == Raw(batch[i].other)
  {
    ParamCount(batch);
    if i > 0 {
      ParamsAt(batch[1..], i - 1);
      assert forall k :: 4 <= k < |ParamsOf(batch)| ==> ParamsOf(batch)[k] == ParamsOf(batch[1..])[k - 4];
    }
  }

  lemma {:induction false} GroupsLength(n: nat)
    ensures n > 0 ==> |Groups(n)| == 13 * n - 1
  {
    if n > 1 {
      GroupsLength(n - 1);
    }
  }

  /** A group of four placeholders stands at this place of the text. */
  predicate HasGroup(query: string, at: nat) {
    at + 12 <= |query| && query[at..at + 12] == "(?, ?, ?, ?)"
  }

  lemma ParamsInOrder(batch: seq<EncryptedRecord>)
    ensures |ParamsOf(batch)| == 4 * |batch|
    ensures forall i :: 0 <= i < |batch| ==>
              && ParamsOf(batch)[4 * i] == Number(batch[i].sourceId) && ParamsOf(batch)[4 * i + 1] == Text(batch[i].pan)
              && ParamsOf(batch)[4 * i + 2] == Text(batch[i].cvv) && ParamsOf(batch)[4 * i + 3] == Raw(batch[i].other)
  {
    ParamCount(batch);
    forall i: nat | i < |batch|
      ensures ParamsOf(batch)[4 * i] == Number(batch[i].sourceId) && ParamsOf(batch)[4 * i + 1] == Text(batch[i].pan)
      ensures ParamsOf(batch)[4 * i + 2] == Text(batch[i].cvv) && ParamsOf(batch)[4 * i + 3] == Raw(batch[i].other)
    {
      ParamsAt(batch, i);
    }
  }

  lemma TextIsGroups(head: string, n: nat)
    requires n > 0
    ensures |head + Groups(n)| == |head| + 13 * n - 1 && (head + Groups(n))[..|head|] == head
    ensures forall i :: 0 <= i < n ==> HasGroup(head + Groups(n), |head| + 13 * i)
    ensures forall i {:trigger HasGroup(head + Groups(n), |head| + 13 * i)} ::
              0 <= i < n - 1 ==> (head + Groups(n))[|head| + 13 * i + 12] == ','
  {
    GroupsLength(n);
    forall i: nat | i < n
      ensures HasGroup(head + Groups(n), |head| + 13 * i)
      ensures i < n - 1 ==> (head + Groups(n))[|head| + 13 * i + 12] == ','
    {
      GroupAt(head, n, i);
    }
  }

  /** Group i of n in the text. */
  lemma GroupAt(head: string, n: nat, i: nat)
    requires i < n
    ensures |head + Groups(n)| == |head| + 13 * n - 1
    ensures HasGroup(head + Groups(n), |head| + 13 * i)
    ensures i < n - 1 ==> (head + Groups(n))[|head| + 13 * i + 12] == ','
  {
    GroupsLength(n);
    GroupIn(n, i);
    Shift(head, Groups(n), 13 * i, 12);
  }

  /** A part of b, found in a + b. */
  lemma Shift(a: string, b: string, at: nat, length: nat)
    requires at + length <= |b|
    ensures (a + b)[|a| + at..|a| + at + length] == b[at..at + length]
    ensures at + length < |b| ==> (a + b)[|a| + at + length] == b[at + length]
  {
  }

  lemma {:induction false} GroupIn(n: nat, i: nat)
    requires i < n && |Groups(n)| == 13 * n - 1
    ensures Groups(n)[13 * i..13 * i + 12] == GROUP
    ensures i < n - 1 ==> Groups(n)[13 * i + 12] == ','
  {
    if i > 0 {
      GroupsLength(n - 1);
      GroupIn(n - 1, i - 1);
      Shift(GROUP + ",", Groups(n - 1), 13 * (i - 1), 12);
    } else if n > 1 {
      assert GROUP + "," + Groups(n - 1) == GROUP + ("," + Groups(n - 1));
    }
  }

  lemma {:induction false} GroupsAtEnd(n: nat)
    ensures Groups(n + 1) == Groups(n) + (if n > 0 then "," else "") + GROUP
  {
    if n > 1 {
      GroupsAtEnd(n - 1);
    }
  }

  lemma NextParams(batch: seq<EncryptedRecord>, i: nat)
    requires i < |batch|
    ensures ParamsOf(batch[..i + 1]) == ParamsOf(batch[..i]) + RowOf(batch[i])
  {
    assert batch[..i + 1] == batch[..i] + [batch[i]];
    ParamsAppend(batch[..i], batch[i]);
  }

  lemma {:induction false} ParamsAppend(batch: seq<EncryptedRecord>, r: EncryptedRecord)
    ensures ParamsOf(batch + [r]) == ParamsOf(batch) + RowOf(r)
  {
    if batch == [] {
      assert [r][1..] == [];
    } else {
      ParamsAppend(batch[1..], r);
      assert (batch + [r])[1..] == batch[1..] + [r];
    }
  }

  /**
    How a driver reads a VALUES list: groups of four placeholders, each taking the next four
    parameters; None when text and parameters do not fit together.
   */
  function Bind(values: string, params: seq<Param>): Option<seq<seq<Param>>> {
    if |values| < |GROUP| || values[..|GROUP|] != GROUP || |params| < 4 then None
    else if |values| == |GROUP| then if |params| == 4 then Some([params]) else None
    else if values[|GROUP|] != ',' then None
    else match Bind(values[|GROUP| + 1..], params[4..])
      case None => None
      case Some(rest) => Some([params[..4]] + rest)
  }

  /** Read that way, the statement inserts one row per record, in order, each with its own four fields. */
  lemma {:induction false} StatementMeansBatch(batch: seq<EncryptedRecord>)
    requires batch != []
    ensures Bind(Groups(|batch|), ParamsOf(batch)) == Some(Rows(batch))
  {
    var params := ParamsOf(batch);
    assert |params| >= 4;
    assert params[..4] == RowOf(batch[0]) && params[4..] == ParamsOf(batch[1..]);
    if |batch| == 1 {
      assert batch[1..] == [] && Rows(batch) == [RowOf(batch[0])];
      assert params == RowOf(batch[0]);
    } else {
      StatementMeansBatch(batch[1..]);
      var values := Groups(|batch|);
      assert values[..|GROUP|] == GROUP && values[|GROUP|] == ',';
      assert values[|GROUP| + 1..] == Groups(|batch| - 1);
    }
  }

  /** The record a row of the statement stands for, by the statement's column order. */
  function Read(row: seq<Param>): Option<EncryptedRecord> {
    if |row| == 4 && row[0].Number? && row[1].Text? && row[2].Text? && row[3].Raw? then
      Some(EncryptedRecord(row[0].n, row[1].s, row[2].s, row[3].b))
    else None
  }

  /** Reading the bound rows back gives the batch. */
  lemma StatementStoresBatch(batch: seq<EncryptedRecord>)
    requires batch != []
    ensures var rows := Bind(Groups(|batch|), ParamsOf(batch));
            rows.Some? && |rows.value| == |batch|
            && forall i :: 0 <= i < |batch| ==> Read(rows.value[i]) == Some(batch[i])
  {
    StatementMeansBatch(batch);
    forall i: nat | i < |batch| ensures i < |Rows(batch)| && Rows(batch)[i] == RowOf(batch[i]) {
      RowsAt(batch, i);
    }
    RowsAt(batch, 0);
  }

  lemma {:induction false} RowsAt(batch: seq<EncryptedRecord>, i: nat)
    requires i < |batch|
    ensures |Rows(batch)| == |batch| && Rows(batch)[i] == RowOf(batch[i])
  {
    if i > 0 {
      RowsAt(batch[1..], i - 1);
    } else if |batch| > 1 {
      RowsAt(batch[1..], 0);
    }
  }

  /** The number of placeholders in a query. */
  function Marks(s: string): nat {
    multiset(s)['?']
  }

  lemma MarksConcat(a: string, b: string)
    ensures Marks(a + b) == Marks(a) + Marks(b)
  {
  }

  lemma GroupMarks()
    ensures Marks(GROUP) == 4
  {
  }

  lemma {:induction false} MarksOfGroups(n: nat)
    ensures Marks(Groups(n)) == 4 * n
  {
    GroupMarks();
    if n > 1 {
      MarksOfGroups(n - 1);
      MarksConcat(GROUP + ",", Groups(n - 1));
      MarksConcat(GROUP, ",");
      assert Marks(",") == 0;
    }
  }

  lemma {:induction false} ParamCount(batch: seq<EncryptedRecord>)
    ensures |ParamsOf(batch)| == 4 * |batch|
  {
    if batch != [] {
      ParamCount(batch[1..]);
    }
  }

  lemma MarksOfQuery(head: string, n: nat)
    requires '?' !in head
    ensures Marks(head + Groups(n)) == 4 * n
  {
    MarksOfGroups(n);
    MarksConcat(head, Groups(n));
  }

  /** As many placeholders as parameters; at the shipped batch size of 500, at most 2000 of them. */
  lemma PlaceholdersMatchParams(head: string, batch: seq<EncryptedRecord>)
    requires '?' !in head
    ensures Marks(head + Groups(|batch|)) == |ParamsOf(batch)|
    ensures |batch| <= 500 ==> |ParamsOf(batch)| <= 2000
  {
    MarksOfQuery(head, |batch|);
    ParamCount(batch);
  }
}
