/** Reading the destination back: the map from source id to encrypted record the verifier works from. */
module StoredRows {
  import opened Basics
  import opened Records

  /** The rows whose Scan succeeds. */
  function Scanned(rows: seq<Option<EncryptedRecord>>): seq<EncryptedRecord> {
    if rows == [] then []
    else Scanned(rows[..|rows| - 1]) + if rows[|rows| - 1].Some? then [rows[|rows| - 1].value] else []
  }

  /** A later row with the same source id replaces an earlier one. */
  function ById(rows: seq<EncryptedRecord>): map<int, EncryptedRecord> {
    if rows == [] then map[] else ById(rows[..|rows| - 1])[rows[|rows| - 1].sourceId := rows[|rows| - 1]]
  }

  /** An id is in the map exactly if some scanned row carries it, and maps to the last such row. */
  lemma LoadedMeans(rows: seq<Option<EncryptedRecord>>)
    ensures var m := ById(Scanned(rows));
            forall id :: id in m <==> exists i :: 0 <= i < |rows| && rows[i].Some? && rows[i].value.sourceId == id
    ensures var m := ById(Scanned(rows));
            forall id :: id in m ==>
              exists i :: 0 <= i < |rows| && rows[i] == Some(m[id]) && m[id].sourceId == id
                          && forall j :: i < j < |rows| && rows[j].Some? ==> rows[j].value.sourceId != id
  {
    var m := ById(Scanned(rows));
    forall id
      ensures id in m <==> exists i :: 0 <= i < |rows| && rows[i].Some? && rows[i].value.sourceId == id
      ensures id in m ==> LastWins(rows, m[id], id)
    {
      ScannedById(rows, id);
    }
  }

  ghost predicate LastWins(rows: seq<Option<EncryptedRecord>>, e: EncryptedRecord, id: int) {
    exists i :: 0 <= i < |rows| && rows[i] == Some(e) && e.sourceId == id
                && forall j :: i < j < |rows| && rows[j].Some? ==> rows[j].value.sourceId != id
  }

  lemma {:induction false} ScannedById(rows: seq<Option<EncryptedRecord>>, id: int)
    ensures id in ById(Scanned(rows)) <==>
            exists i :: 0 <= i < |rows| && rows[i].Some? && rows[i].value.sourceId == id
    ensures id in ById(Scanned(rows)) ==> LastWins(rows, ById(Scanned(rows))[id], id)
  {
    if rows != [] {
      var last := |rows| - 1;
      var init, before := rows[..last], Scanned(rows[..last]);
      ScannedById(init, id);
      assert forall i :: 0 <= i < last ==> init[i] == rows[i];
      match rows[last]
      case None => assert Scanned(rows) == before;
      case Some(rec) =>
        assert Scanned(rows)[..|before|] == before;
        if rec.sourceId == id {
          assert rows[last] == Some(ById(Scanned(rows))[id]);
        }
    }
  }

  method LoadStored(rows: seq<Option<EncryptedRecord>>) returns (m: map<int, EncryptedRecord>)
    ensures m == ById(Scanned(rows))
    ensures forall id :: id in m <==> exists i :: 0 <= i < |rows| && rows[i].Some? && rows[i].value.sourceId == id
    ensures forall id :: id in m ==>
              exists i :: 0 <= i < |rows| && rows[i] == Some(m[id]) && m[id].sourceId == id
                          && forall j :: i < j < |rows| && rows[j].Some? ==> rows[j].value.sourceId != id
  {
    LoadedMeans(rows);
    m := map[];
    for i := 0 to |rows|
      invariant m == ById(Scanned(rows[..i]))
    {
      assert rows[..i + 1][..i] == rows[..i];
      match rows[i]
      case None => assert Scanned(rows[..i + 1]) == Scanned(rows[..i]);
      case Some(rec) =>
        ghost var before, after := Scanned(rows[..i]), Scanned(rows[..i + 1]);
        assert after[..|after| - 1] == before;
        m := m[rec.sourceId := rec];
    }
    assert rows[..|rows|] == rows;
  }

  /** Each id maps to the last row that carries it. */
  lemma {:induction false} ByIdMeaning(rows: seq<EncryptedRecord>, id: int)
    ensures id in ById(rows) <==> exists i :: 0 <= i < |rows| && rows[i].sourceId == id
    ensures id in ById(rows) ==>
              exists i :: 0 <= i < |rows| && rows[i] == ById(rows)[id] && rows[i].sourceId == id
                          && forall j :: i < j < |rows| ==> rows[j].sourceId != id
  {
    if rows != [] {
      var last := |rows| - 1;
      ByIdMeaning(rows[..last], id);
      if rows[last].sourceId != id && id in ById(rows) {
        var i :| 0 <= i < last && rows[..last][i] == ById(rows)[id] && rows[..last][i].sourceId == id
                 && forall j :: i < j < last ==> rows[..last][j].sourceId != id;
        assert rows[i] == ById(rows)[id];
        assert forall j :: i < j < |rows| ==> rows[j].sourceId != id;
      } else if rows[last].sourceId == id {
        assert rows[last] == ById(rows)[id];
      }
    }
  }
}
