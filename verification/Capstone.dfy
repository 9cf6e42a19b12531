/**
  ETL followed by verification. Whatever interleaving and failures the ETL run had, the verifier's
  green rows are about records the run really stored; and when no Decrypt call fails or times out they
  are exactly those records, so "Perfect Matches" is the ETL's processedCount.
 */
module Capstone {
  import opened Basics
  import opened Records
  import opened Sequences
  import opened Verification
  import opened VerifierResults
  import opened StoredRows
  import P = Pipeline
  import PipelineRuns
  import V = Verifier
  import VerifierRuns
  import opened VerifierSmooth

  predicate UniqueIds(cards: seq<Card>) {
    forall i, j :: 0 <= i < j < |cards| ==> cards[i].id != cards[j].id
  }

  /** The verifier reads the source the ETL read and the table it left behind, each in some order. */
  ghost predicate FollowsOn(e: P.Config, t: P.State, readBack: seq<EncryptedRecord>, v: V.Config) {
    && v.key == e.key
    && multiset(v.originals) == multiset(P.Cards(e))
    && multiset(readBack) == multiset(t.table)
    && v.stored == ById(readBack)
  }

  /** The state of affairs between the two phases. */
  ghost predicate Linked(e: P.Config, t: P.State, readBack: seq<EncryptedRecord>, v: V.Config) {
    && UniqueIds(P.Cards(e))
    && PipelineRuns.Partition(e, t.table, t.rejected, t.dropped)
    && FollowsOn(e, t, readBack, v)
  }

  ghost predicate IsStored(e: P.Config, t: P.State, card: Card) {
    exists i :: 0 <= i < |t.table| && Recovered(e.key, t.table[i]) == Some(card)
  }

  // ---------------------------------------------------------------- multiplicities

  lemma TwiceInside<T>(s: seq<T>, i: nat, j: nat)
    requires i < j < |s| && s[i] == s[j]
    ensures multiset(s)[s[i]] >= 2
  {
    assert s == s[..j] + s[j..];
    assert s[i] in s[..j] by { assert s[..j][i] == s[i]; }
    assert s[j] in s[j..] by { assert s[j..][0] == s[j]; }
  }

  lemma {:induction false} OnceInside<T>(s: seq<T>, x: T)
    requires forall i, j :: 0 <= i < j < |s| ==> s[i] != s[j]
    ensures multiset(s)[x] <= 1
  {
    if s != [] {
      var last := |s| - 1;
      OnceInside(s[..last], x);
      assert s == s[..last] + [s[last]];
      assert s[last] !in s[..last];
    }
  }

  lemma {:induction false} SomesIndex(cards: seq<Card>, i: nat)
    requires i < |cards|
    ensures |Somes(cards)| == |cards| && Somes(cards)[i] == Some(cards[i])
  {
    PipelineRuns.SomesLength(cards);
    if i > 0 {
      SomesIndex(cards[1..], i - 1);
    }
  }

  lemma SomesUnique(cards: seq<Card>, x: Option<Card>)
    requires UniqueIds(cards)
    ensures multiset(Somes(cards))[x] <= 1
    ensures x in multiset(Somes(cards)) ==> x.Some? && x.value in cards
  {
    PipelineRuns.SomesLength(cards);
    forall i, j | 0 <= i < j < |cards| ensures Somes(cards)[i] != Somes(cards)[j] {
      SomesIndex(cards, i);
      SomesIndex(cards, j);
    }
    OnceInside(Somes(cards), x);
    if x in multiset(Somes(cards)) {
      var i :| 0 <= i < |Somes(cards)| && Somes(cards)[i] == x;
      SomesIndex(cards, i);
    }
  }

  // ---------------------------------------------------------------- what the table holds

  /** Every stored row decrypts to a source card, and no two rows carry the same id. */
  lemma TableRows(e: P.Config, t: P.State, i: nat)
    requires UniqueIds(P.Cards(e)) && PipelineRuns.Partition(e, t.table, t.rejected, t.dropped) && i < |t.table|
    ensures var r := Recovered(e.key, t.table[i]);
            r.Some? && r.value in P.Cards(e) && r.value.id == t.table[i].sourceId
            && multiset(Map(View(e.key), t.table))[r] <= 1
  {
    var view := View(e.key);
    MapIndexes(view, t.table);
    var r := view(t.table[i]);
    assert Map(view, t.table)[i] in multiset(Map(view, t.table));
    SomesUnique(P.Cards(e), r);
  }

  lemma TableIdsDiffer(e: P.Config, t: P.State, i: nat, j: nat)
    requires UniqueIds(P.Cards(e)) && PipelineRuns.Partition(e, t.table, t.rejected, t.dropped) && i < j < |t.table|
    ensures t.table[i].sourceId != t.table[j].sourceId
  {
    var view := View(e.key);
    TableRows(e, t, i);
    TableRows(e, t, j);
    MapIndexes(view, t.table);
    if t.table[i].sourceId == t.table[j].sourceId {
      SameIdSameCard(P.Cards(e), Recovered(e.key, t.table[i]).value, Recovered(e.key, t.table[j]).value);
      TwiceInside(Map(view, t.table), i, j);
    }
  }

  lemma SameIdSameCard(cards: seq<Card>, x: Card, y: Card)
    requires UniqueIds(cards) && x in cards && y in cards && x.id == y.id
    ensures x == y
  {
  }

  /** The verifier finds, under a card's id, exactly the record that decrypts to the card, if it is stored. */
  lemma FoundIsCard(e: P.Config, t: P.State, readBack: seq<EncryptedRecord>, v: V.Config, card: Card)
    requires Linked(e, t, readBack, v) && card in P.Cards(e)
    ensures card.id in v.stored <==> IsStored(e, t, card)
    ensures card.id in v.stored ==> Recovered(e.key, v.stored[card.id]) == Some(card)
  {
    ByIdMeaning(readBack, card.id);
    if card.id in v.stored {
      var i :| 0 <= i < |readBack| && readBack[i] == v.stored[card.id] && readBack[i].sourceId == card.id;
      assert readBack[i] in multiset(t.table);
      var k :| 0 <= k < |t.table| && t.table[k] == readBack[i];
      TableRows(e, t, k);
      SameIdSameCard(P.Cards(e), Recovered(e.key, t.table[k]).value, card);
    }
    if IsStored(e, t, card) {
      var k :| 0 <= k < |t.table| && Recovered(e.key, t.table[k]) == Some(card);
      TableRows(e, t, k);
      assert t.table[k] in multiset(readBack);
    }
  }

  // ---------------------------------------------------------------- counting

  lemma {:induction false} ImageSize(s: set<nat>, f: nat -> int, image: set<int>)
    requires forall i, j :: i in s && j in s && f(i) == f(j) ==> i == j
    requires image == set i | i in s :: f(i)
    ensures |image| == |s|
  {
    if s != {} {
      var i :| i in s;
      assert image - {f(i)} == set j | j in s - {i} :: f(j);
      ImageSize(s - {i}, f, image - {f(i)});
    }
  }

  /** As many ids in the verifier's map as rows in the table. */
  lemma StoredCount(e: P.Config, t: P.State, readBack: seq<EncryptedRecord>, v: V.Config)
    requires Linked(e, t, readBack, v)
    ensures |v.stored.Keys| == |t.table|
  {
    var table := t.table;
    var f := (i: nat) => if i < |table| then table[i].sourceId else 0;
    forall i, j | i in Positions(|table|) && j in Positions(|table|) && f(i) == f(j) ensures i == j {
      if i < j {
        TableIdsDiffer(e, t, i, j);
      } else if j < i {
        TableIdsDiffer(e, t, j, i);
      }
    }
    StoredIds(table, readBack, v.stored, f);
    ImageSize(Positions(|table|), f, v.stored.Keys);
  }

  lemma StoredIds(
      table: seq<EncryptedRecord>, readBack: seq<EncryptedRecord>, stored: map<int, EncryptedRecord>, f: nat -> int)
    requires multiset(readBack) == multiset(table) && stored == ById(readBack)
    requires forall i: nat :: i < |table| ==> f(i) == table[i].sourceId
    ensures stored.Keys == set i | i in Positions(|table|) :: f(i)
  {
    forall id ensures id in stored.Keys <==> exists k: nat :: k in Positions(|table|) && f(k) == id {
      SameIds(readBack, table, id);
      ByIdMeaning(readBack, id);
      if k :| 0 <= k < |table| && table[k].sourceId == id {
        assert k in Positions(|table|) && f(k) == id;
      }
    }
  }

  lemma SameIds(a: seq<EncryptedRecord>, b: seq<EncryptedRecord>, id: int)
    requires multiset(a) == multiset(b)
    ensures (exists i :: 0 <= i < |a| && a[i].sourceId == id) <==> (exists i :: 0 <= i < |b| && b[i].sourceId == id)
  {
    if i :| 0 <= i < |a| && a[i].sourceId == id {
      assert a[i] in multiset(b);
    }
    if i :| 0 <= i < |b| && b[i].sourceId == id {
      assert b[i] in multiset(a);
    }
  }

  // ---------------------------------------------------------------- soundness: no false green

  /**
    For every ETL run and every verifier run, cancelled, timed out or failing as they may: a returned
    record that claims both matches is about a source card that is stored and decrypts to it.
   */
  lemma GreenIsStored(e: P.Config, etl: seq<P.Action>, t: P.State, readBack: seq<EncryptedRecord>,
                      v: V.Config, actions: seq<V.Action>, u: V.State, i: nat)
    requires e.Valid() && P.IsRun(e, P.Init(e), etl, t) && t.main.Returned? && UniqueIds(P.Cards(e))
    requires FollowsOn(e, t, readBack, v) && V.IsRun(v, V.Init(v), actions, u)
    requires u.returned.Some? && i < |u.returned.value| && RowColour(u.returned.value[i]) == Green
    ensures IsStored(e, t, Origin(u.returned.value[i]))
  {
    PipelineRuns.EtlOutcome(e, etl, t);
    VerifierRuns.ReachableTraced(v, actions, u);
    var w := u.returned.value[i];
    assert Genuine(v, VerifierRuns.AnyResult(v), w);
    GenuineGreen(e, t, readBack, v, w);
  }

  lemma GenuineGreen(
      e: P.Config, t: P.State, readBack: seq<EncryptedRecord>, v: V.Config, w: VerificationRecord)
    requires Linked(e, t, readBack, v) && Origin(w) in v.originals
    requires ResultFor(v.key, v.stored, Origin(w), w) && RowColour(w) == Green
    ensures IsStored(e, t, Origin(w))
  {
    assert Origin(w) in multiset(P.Cards(e));
    PerfectIsStored(v.key, v.stored, Origin(w), w);
    FoundIsCard(e, t, readBack, v, Origin(w));
  }

  // ---------------------------------------------------------------- completeness

  function Expected(v: V.Config, card: Card): VerificationRecord {
    if card.id in v.stored then VerifyRecord(v.key, card, v.stored[card.id], true, true) else Failed(card, NotFound)
  }

  function OnlyExpected(v: V.Config): Relation {
    (card, w) => w == Expected(v, card)
  }

  lemma SmoothProducesExpected(v: V.Config, actions: seq<V.Action>)
    requires forall a :: a in actions ==> Smooth(a)
    ensures AboutCards(OnlyExpected(v)) && VerifierRuns.AllProduce(v, OnlyExpected(v), actions)
  {
    var R := OnlyExpected(v);
    forall card, w | R(card, w) ensures Origin(w) == card {
      assert w == Expected(v, card);
    }
    forall i | 0 <= i < |actions| ensures Produces(v, R, actions[i]) {
      assert Smooth(actions[i]);
      SmoothProduces(v, actions[i]);
    }
  }

  lemma SmoothProduces(v: V.Config, a: V.Action)
    requires Smooth(a)
    ensures Produces(v, OnlyExpected(v), a)
  {
    var R := OnlyExpected(v);
    forall card: Card | card.id !in v.stored ensures R(card, Failed(card, NotFound)) {
      assert Expected(v, card) == Failed(card, NotFound);
    }
    forall card: Card | card.id in v.stored
      ensures R(card, VerifyRecord(v.key, card, v.stored[card.id], true, true))
    {
      assert Expected(v, card) == VerifyRecord(v.key, card, v.stored[card.id], true, true);
    }
  }

  /** Every returned record of a smooth run is the expected one for its card. */
  lemma SmoothReturns(v: V.Config, actions: seq<V.Action>, u: V.State, i: nat)
    requires V.IsRun(v, V.Init(v), actions, u) && (forall a :: a in actions ==> Smooth(a))
    requires u.returned.Some? && i < |u.returned.value|
    ensures var w := u.returned.value[i]; w == Expected(v, Origin(w)) && Origin(w) in v.originals
  {
    SmoothProducesExpected(v, actions);
    VerifierRuns.InitTraced(v, OnlyExpected(v));
    VerifierRuns.RunTraced(v, OnlyExpected(v), V.Init(v), actions, u);
    assert Genuine(v, OnlyExpected(v), u.returned.value[i]);
  }

  lemma ExpectedMatches(
      e: P.Config, t: P.State, readBack: seq<EncryptedRecord>, v: V.Config, card: Card)
    requires Linked(e, t, readBack, v) && card in P.Cards(e)
    ensures var w := Expected(v, card);
            && (Perfect(w) <==> IsStored(e, t, card))
            && (w.panMatch <==> IsStored(e, t, card))
            && (w.cvvMatch <==> IsStored(e, t, card))
  {
    FoundIsCard(e, t, readBack, v, card);
    if card.id in v.stored {
      StoredIsPerfect(v.key, card, v.stored[card.id]);
    }
  }

  /** In a smooth run a row is green exactly when its record was stored, and so are its single matches. */
  lemma MatchIffStored(e: P.Config, etl: seq<P.Action>, t: P.State, readBack: seq<EncryptedRecord>,
                       v: V.Config, actions: seq<V.Action>, u: V.State, i: nat)
    requires e.Valid() && P.IsRun(e, P.Init(e), etl, t) && t.main.Returned? && UniqueIds(P.Cards(e))
    requires FollowsOn(e, t, readBack, v) && V.IsRun(v, V.Init(v), actions, u)
    requires forall a :: a in actions ==> Smooth(a)
    requires u.returned.Some? && i < |u.returned.value|
    ensures var w := u.returned.value[i];
            && Origin(w) in P.Cards(e)
            && (Perfect(w) <==> IsStored(e, t, Origin(w)))
            && (w.panMatch <==> IsStored(e, t, Origin(w)))
            && (w.cvvMatch <==> IsStored(e, t, Origin(w)))
  {
    PipelineRuns.EtlOutcome(e, etl, t);
    SmoothReturns(v, actions, u, i);
    var card := Origin(u.returned.value[i]);
    assert card in multiset(P.Cards(e));
    ExpectedMatches(e, t, readBack, v, card);
  }

  /** Positions of one returned record per card are told apart by their source ids. */
  lemma OriginsDiffer(v: V.Config, got: seq<VerificationRecord>, i: nat, j: nat)
    requires UniqueIds(v.originals) && multiset(Map(ByOrigin(), got)) == multiset(v.originals)
    requires i < j < |got|
    ensures got[i].sourceId != got[j].sourceId
  {
    MapIndexes(ByOrigin(), got);
    assert Map(ByOrigin(), got)[i] in multiset(v.originals) && Map(ByOrigin(), got)[j] in multiset(v.originals);
    if got[i].sourceId == got[j].sourceId {
      SameIdSameCard(v.originals, Origin(got[i]), Origin(got[j]));
      TwiceInside(Map(ByOrigin(), got), i, j);
      OnceInside(v.originals, Origin(got[i]));
    }
  }

  lemma UniqueIdsOfPermutation(a: seq<Card>, b: seq<Card>)
    requires multiset(a) == multiset(b) && UniqueIds(b)
    ensures UniqueIds(a)
  {
    forall i, j | 0 <= i < j < |a| ensures a[i].id != a[j].id {
      assert a[i] in multiset(b) && a[j] in multiset(b);
      if a[i].id == a[j].id {
        SameIdSameCard(b, a[i], a[j]);
        TwiceInside(a, i, j);
        OnceInside(b, a[i]);
      }
    }
  }

  /** The ids of the perfect matches, as a set as large as their number. */
  lemma PerfectIds(v: V.Config, got: seq<VerificationRecord>) returns (ids: set<int>)
    requires UniqueIds(v.originals) && multiset(Map(ByOrigin(), got)) == multiset(v.originals)
    ensures |ids| == |Counted(got, true, true)|
    ensures forall id :: id in ids <==> exists i :: 0 <= i < |got| && Perfect(got[i]) && got[i].sourceId == id
  {
    var green := Counted(got, true, true);
    var f := (i: nat) => if i < |got| then got[i].sourceId else 0;
    ids := set i | i in green :: f(i);
    forall i, j | i in green && j in green && f(i) == f(j) ensures i == j {
      if i < j {
        OriginsDiffer(v, got, i, j);
      } else if j < i {
        OriginsDiffer(v, got, j, i);
      }
    }
    ImageSize(green, f, ids);
    forall id ensures id in ids <==> exists i :: 0 <= i < |got| && Perfect(got[i]) && got[i].sourceId == id {
      if i :| 0 <= i < |got| && Perfect(got[i]) && got[i].sourceId == id {
        assert i in green && f(i) == id;
      }
    }
  }

  /**
    The capstone. For every ETL interleaving and failure pattern, and every verifier run that main
    ended by itself with no safety timer interfering, "Perfect Matches" is at most the ETL's
    processedCount; and it equals it when no Decrypt call failed or timed out.
   */
  lemma PerfectMatchesAreProcessed(
      e: P.Config, etl: seq<P.Action>, t: P.State, readBack: seq<EncryptedRecord>,
                                   v: V.Config, actions: seq<V.Action>, u: V.State)
    requires e.Valid() && P.IsRun(e, P.Init(e), etl, t) && t.main.Returned? && UniqueIds(P.Cards(e))
    requires FollowsOn(e, t, readBack, v) && V.IsRun(v, V.Init(v), actions, u)
    requires u.main.Returned? && !u.gaveUp && !u.cutShort
    ensures u.returned.Some? && |u.returned.value| == |P.Cards(e)|
    ensures |Counted(u.returned.value, true, true)| <= t.processed
    ensures (forall a :: a in actions ==> Smooth(a)) ==> |Counted(u.returned.value, true, true)| == t.processed
  {
    PipelineRuns.EtlOutcome(e, etl, t);
    VerifierRuns.CompleteReturn(v, actions, u);
    var got := u.returned.value;
    SameLength(Map(ByOrigin(), got), v.originals);
    SameLength(v.originals, P.Cards(e));
    MapLength(ByOrigin(), got);
    UniqueIdsOfPermutation(v.originals, P.Cards(e));
    forall i | 0 <= i < |got| && Perfect(got[i]) ensures got[i].sourceId in v.stored {
      PerfectIdIsStored(v, actions, u, i);
    }
    GreenIdsAreStored(v, got);
    StoredCount(e, t, readBack, v);
    if forall a :: a in actions ==> Smooth(a) {
      forall i | 0 <= i < |got| ensures got[i] == Expected(v, Origin(got[i])) {
        SmoothReturns(v, actions, u, i);
      }
      StoredIdsAreGreen(e, t, readBack, v, got);
    }
  }

  /** There always is a verifier run that reports as many perfect matches as the ETL processed. */
  lemma ProcessedCanBeConfirmed(
      e: P.Config, etl: seq<P.Action>, t: P.State, readBack: seq<EncryptedRecord>, v: V.Config)
      returns (actions: seq<V.Action>, u: V.State)
    requires e.Valid() && P.IsRun(e, P.Init(e), etl, t) && t.main.Returned? && UniqueIds(P.Cards(e))
    requires FollowsOn(e, t, readBack, v) && v.workers >= 1
    ensures V.IsRun(v, V.Init(v), actions, u) && u.returned.Some?
    ensures |Counted(u.returned.value, true, true)| == t.processed
  {
    actions, u := SmoothRunExists(v);
    PerfectMatchesAreProcessed(e, etl, t, readBack, v, actions, u);
  }

  lemma SameLength<T>(a: seq<T>, b: seq<T>)
    requires multiset(a) == multiset(b)
    ensures |a| == |b|
  {
    assert |multiset(a)| == |a| && |multiset(b)| == |b|;
  }

  lemma PerfectIdIsStored(v: V.Config, actions: seq<V.Action>, u: V.State, i: nat)
    requires V.IsRun(v, V.Init(v), actions, u) && u.returned.Some?
    requires i < |u.returned.value| && Perfect(u.returned.value[i])
    ensures u.returned.value[i].sourceId in v.stored
  {
    VerifierRuns.ReachableTraced(v, actions, u);
    var w := u.returned.value[i];
    assert Genuine(v, VerifierRuns.AnyResult(v), w);
    PerfectIsStored(v.key, v.stored, Origin(w), w);
  }

  /** At most as many perfect matches as stored ids: the ids of the former are among the latter. */
  lemma GreenIdsAreStored(v: V.Config, got: seq<VerificationRecord>)
    requires UniqueIds(v.originals) && multiset(Map(ByOrigin(), got)) == multiset(v.originals)
    requires forall i :: 0 <= i < |got| && Perfect(got[i]) ==> got[i].sourceId in v.stored
    ensures |Counted(got, true, true)| <= |v.stored.Keys|
  {
    var ids := PerfectIds(v, got);
    forall id | id in ids ensures id in v.stored.Keys {
      var i :| 0 <= i < |got| && Perfect(got[i]) && got[i].sourceId == id;
    }
    SubsetSize(ids, v.stored.Keys);
  }

  /** And no fewer when every returned record is the expected one. */
  lemma StoredIdsAreGreen(e: P.Config, t: P.State, readBack: seq<EncryptedRecord>, v: V.Config,
                          got: seq<VerificationRecord>)
    requires Linked(e, t, readBack, v) && UniqueIds(v.originals)
    requires multiset(Map(ByOrigin(), got)) == multiset(v.originals)
    requires forall i :: 0 <= i < |got| ==> got[i] == Expected(v, Origin(got[i]))
    ensures |v.stored.Keys| <= |Counted(got, true, true)|
  {
    var ids := PerfectIds(v, got);
    forall id | id in v.stored.Keys ensures id in ids {
      var i := StoredIdIsGreen(e, t, readBack, v, got, id);
    }
    SubsetSize(v.stored.Keys, ids);
  }

  lemma StoredIdIsGreen(e: P.Config, t: P.State, readBack: seq<EncryptedRecord>, v: V.Config,
                        got: seq<VerificationRecord>, id: int) returns (i: nat)
    requires Linked(e, t, readBack, v) && id in v.stored
    requires multiset(Map(ByOrigin(), got)) == multiset(v.originals)
    requires forall i :: 0 <= i < |got| ==> got[i] == Expected(v, Origin(got[i]))
    ensures i < |got| && Perfect(got[i]) && got[i].sourceId == id
  {
    ByIdMeaning(readBack, id);
    SameIds(readBack, t.table, id);
    var n :| 0 <= n < |t.table| && t.table[n].sourceId == id;
    TableRows(e, t, n);
    var card := Recovered(e.key, t.table[n]).value;
    assert card in multiset(Map(ByOrigin(), got));
    MapLength(ByOrigin(), got);
    i :| 0 <= i < |Map(ByOrigin(), got)| && Map(ByOrigin(), got)[i] == card;
    MapIndexes(ByOrigin(), got);
    ExpectedMatches(e, t, readBack, v, card);
  }
}
