/** What the verifier returns once one of its safety timers has fired, and the exact condition for losing nothing. */
module VerifierReturns {
  import opened Basics
  import opened Aead
  import opened Records
  import opened Sequences
  import opened Verification
  import opened Verifier
  import opened VerifierEffects
  import opened VerifierSafety
  import opened VerifierResults
  import opened VerifierRuns

  /**
    Off the cancellation path a collector that is not done, or gave up, is short of results; a forced
    close that came too early leaves some result unsent for ever; and main returns the slice as it stays.
   */
  ghost predicate Short(n: nat, s: State) {
    && (!OnCancelPath(s.main) && n > 0 && (s.gaveUp || !s.collector.Done?) ==> |s.results| < n)
    && (s.gaveUp ==> s.collector.Done?)
    && (s.cutShort && !s.panicked ==> Owing(s.outers) != {})
    && (s.main.Returned? ==> s.returned == Some(s.results))
  }

  lemma InitShort(c: Config)
    ensures Short(|c.originals|, Init(c))
  {
  }

  lemma ShortStep(c: Config, s: State, a: Action)
    requires Inv(c, s) && Short(|c.originals|, s) && Enabled(c, s, a)
    ensures Short(|c.originals|, Step(c, s, a))
  {
    StepHasEffect(c, s, a);
    EffectShort(c, s, a, Step(c, s, a));
  }

  lemma EffectShort(c: Config, s: State, a: Action, t: State)
    requires Inv(c, s) && Short(|c.originals|, s) && Enabled(c, s, a) && Effect(c, s, a, t)
    ensures Short(|c.originals|, t)
  {
    match a
    case Main(m) => MainShort(c, s, m, t);
    case Outer(i, o) =>
      if !t.panicked && s.closes > 0 {
        OuterOnlyStopsOwing(c, s, i, o, t);
      }
    case _ =>
  }

  lemma MainShort(c: Config, s: State, m: MainOp, t: State)
    requires Inv(c, s) && Short(|c.originals|, s) && MainEnabled(c, s, m) && !s.panicked && MainEffect(c, s, m, t)
    ensures Short(|c.originals|, t)
  {
  }

  lemma {:induction false} RunShort(c: Config, s: State, actions: seq<Action>, t: State)
    requires Inv(c, s) && Short(|c.originals|, s) && IsRun(c, s, actions, t)
    ensures Short(|c.originals|, t)
    decreases |actions|
  {
    if actions != [] {
      StepKeeps(c, s, actions[0]);
      ShortStep(c, s, actions[0]);
      RunShort(c, Step(c, s, actions[0]), actions[1..], t);
    }
  }

  /**
    A return that was not cancelled is complete (one result per source record, in some order) exactly when
    neither safety timer spoiled the run, or there was nothing to return.
   */
  lemma CompleteIffUnspoiled(c: Config, actions: seq<Action>, t: State)
    requires IsRun(c, Init(c), actions, t) && t.main.Returned? && !t.panicked
    ensures t.returned.Some?
    ensures multiset(Map(ByOrigin(), t.returned.value)) == multiset(c.originals) <==>
            (!t.gaveUp && !t.cutShort) || c.originals == []
  {
    InitInv(c);
    InitShort(c);
    RunShort(c, Init(c), actions, t);
    ReachableTraced(c, actions, t);
    if !t.gaveUp && !t.cutShort {
      CompleteReturn(c, actions, t);
    } else {
      SpoiledIsShort(c, t);
    }
  }

  lemma SpoiledIsShort(c: Config, t: State)
    requires Inv(c, t) && Short(|c.originals|, t) && t.main.Returned? && !t.panicked && (t.gaveUp || t.cutShort)
    ensures t.returned.Some?
    ensures multiset(Map(ByOrigin(), t.returned.value)) == multiset(c.originals) <==> c.originals == []
  {
    MapLength(ByOrigin(), t.results);
    if c.originals != [] {
      SizesDiffer(Map(ByOrigin(), t.results), c.originals);
    } else {
      assert t.results == [];
    }
  }

  /** No return, however it came about, holds a record twice or one that was not in the source. */
  lemma NothingReturnedTwice(c: Config, actions: seq<Action>, t: State)
    requires IsRun(c, Init(c), actions, t) && t.returned.Some?
    ensures multiset(Map(ByOrigin(), t.returned.value)) <= multiset(c.originals)
    ensures AllGenuine(c, AnyResult(c), t.returned.value)
  {
    InitInv(c);
    InitShort(c);
    RunShort(c, Init(c), actions, t);
    ReachableTraced(c, actions, t);
    var got := t.returned.value;
    forall x ensures multiset(Map(ByOrigin(), got))[x] <= multiset(c.originals)[x] {
      ReturnedCount(c, t, got, x);
    }
  }

  lemma ReturnedCount(c: Config, t: State, got: seq<VerificationRecord>, x: Card)
    requires Position(c, t.main) <= |c.originals| && CountIs(c, t, x) && got <= t.results
    ensures multiset(Map(ByOrigin(), got))[x] <= multiset(c.originals)[x]
  {
    var n := Position(c, t.main);
    assert t.results == got + t.results[|got|..];
    TallyConcat(ByOrigin(), got, t.results[|got|..], x);
    TallyIsMultiplicity(ByOrigin(), got, x);
    assert c.originals == c.originals[..n] + c.originals[n..];
  }

  // ---------------------------------------------------------------- what the returned records say

  /**
    Every returned record of every run is about a source row, and says why it was not checked if it was
    not: an id that is not stored is reported missing in both fields, and nothing else is; a deadline that
    passed is reported in both fields; and both kinds are red and claim nothing.
   */
  lemma ReturnedRecordsSayWhy(c: Config, actions: seq<Action>, t: State, i: nat)
    requires IsRun(c, Init(c), actions, t) && t.returned.Some? && i < |t.returned.value|
    ensures var w := t.returned.value[i]; Card(w.sourceId, w.originalPan, w.originalCvv, w.other) in c.originals
    ensures var w := t.returned.value[i];
            (w.panError == NotFound <==> w.sourceId !in c.stored)
            && (w.cvvError == NotFound <==> w.sourceId !in c.stored)
    ensures var w := t.returned.value[i]; w.panError == TimedOut <==> w.cvvError == TimedOut
    ensures var w := t.returned.value[i];
            w.panError == NotFound || w.panError == TimedOut ==>
              && !w.panMatch && !w.cvvMatch && w.encryptedPan == "" && w.encryptedCvv == ""
              && w.decryptedPan == [] && w.decryptedCvv == [] && RowColour(w) == Red
    ensures var w := t.returned.value[i];
            w.sourceId in c.stored && w.panError != TimedOut ==>
              && w.encryptedPan == c.stored[w.sourceId].pan && w.encryptedCvv == c.stored[w.sourceId].cvv
              && Checked(c.key, w.encryptedPan, w.originalPan, w.decryptedPan, w.panMatch, w.panError)
              && Checked(c.key, w.encryptedCvv, w.originalCvv, w.decryptedCvv, w.cvvMatch, w.cvvError)
  {
    NothingReturnedTwice(c, actions, t);
    var w := t.returned.value[i];
    assert Genuine(c, AnyResult(c), w);
    RecordSaysWhy(c, Origin(w), w);
  }

  /** Without an error the field's plaintext is shown and compared; with one there is neither. */
  ghost predicate Checked(
      k: Cipher, field: string, original: Bytes, decrypted: Bytes, matches: bool, error: Problem)
  {
    && (error == NoProblem ==> OpenField(k, field) == Some(decrypted) && (matches <==> decrypted == original))
    && (error != NoProblem ==> decrypted == [] && !matches)
    && (error == NoProblem || error.SplitFailed? || error == DecryptFailed)
  }

  lemma RecordSaysWhy(c: Config, card: Card, w: VerificationRecord)
    requires ResultFor(c.key, c.stored, card, w)
    ensures w.sourceId == card.id && w.originalPan == card.cardNo && w.originalCvv == card.cvv && w.other == card.other
    ensures (w.panError == NotFound <==> card.id !in c.stored) && (w.cvvError == NotFound <==> card.id !in c.stored)
    ensures w.panError == TimedOut <==> w.cvvError == TimedOut
    ensures w.panError == NotFound || w.panError == TimedOut ==> Unchecked(w) && RowColour(w) == Red
    ensures card.id in c.stored && w.panError != TimedOut ==>
              && w.encryptedPan == c.stored[card.id].pan && w.encryptedCvv == c.stored[card.id].cvv
              && Checked(c.key, w.encryptedPan, card.cardNo, w.decryptedPan, w.panMatch, w.panError)
              && Checked(c.key, w.encryptedCvv, card.cvv, w.decryptedCvv, w.cvvMatch, w.cvvError)
  {
    ResultIsAboutCard(c.key, c.stored, card, w);
    MissingIsReported(c.key, c.stored, card, w);
    if card.id in c.stored {
      StoredIsReported(c.key, c.stored, card, w);
    }
    ColoursMean(w);
  }

  /** Reporting a record missing sends the source row with that error in both fields and all else empty. */
  lemma MissingMakes(c: Config, s: State)
    requires MainEnabled(c, s, SendMissing) && s.closes == 0
    ensures var card, t := c.originals[s.main.i], MainStep(c, s, SendMissing);
            t.chan == s.chan + [VerificationRecord(card.id, card.cardNo, card.cvv, "", "", [], [], false, false,
                                                   NotFound, NotFound, card.other)]
  {
  }

  /** A passed deadline makes the source row with the timeout in both fields and all else empty. */
  lemma TimeOutMakes(c: Config, s: State, i: nat)
    requires OuterEnabled(c, s, i, TimeOut)
    ensures var card, t := c.originals[i], OuterStep(c, s, i, TimeOut);
            t.outers == s.outers[i := Sending(VerificationRecord(card.id, card.cardNo, card.cvv, "", "", [], [],
                                                                 false, false, TimedOut, TimedOut, card.other))]
  {
  }

  /** A check reports each field by what its own Decrypt call came back with. */
  lemma ReportMakes(c: Config, s: State, i: nat, p: bool, q: bool)
    requires InnerEnabled(c, s, i)
    ensures var card, t := c.originals[i], InnerStep(c, s, i, p, q);
            && t.outers == s.outers && t.chan == s.chan && t.inners[i].Reported?
            && var v, e := t.inners[i].v, c.stored[card.id];
               && Origin(v) == card && v.encryptedPan == e.pan && v.encryptedCvv == e.cvv
               && FieldReported(c.key, e.pan, card.cardNo, p, v.decryptedPan, v.panMatch, v.panError)
               && FieldReported(c.key, e.cvv, card.cvv, q, v.decryptedCvv, v.cvvMatch, v.cvvError)
  {
    FieldsReported(c.key, c.originals[i], c.stored[c.originals[i].id], p, q);
  }
}
