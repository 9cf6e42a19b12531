/** What holds over whole runs of the ETL pipeline: safety, termination, and the outcome at the end. */
module PipelineRuns {
  import opened Basics
  import opened Records
  import opened Aead
  import Base64
  import opened Sequences
  import opened Pipeline
  import opened PipelineEffects
  import opened PipelineSafety
  import InsertStatement

  // ---------------------------------------------------------------- termination

  function WorkerLoad(w: Worker): nat {
    match w
    case Idle => 1
    case Holding(_) => 6
    case PanDone(_, _) => 5
    case Sending(_) => 4
    case Exited => 0
  }

  function WorkerLoads(): Worker -> nat {
    w => WorkerLoad(w)
  }

  function Pending(w: Writer): nat {
    match w
    case Receiving => 1
    case Flushing => 2
    case Finished => 0
  }

  function ShutdownLeft(m: MainPc): nat {
    match m
    case WaitWorkers => 2
    case WaitWriter => 1
    case Returned => 0
  }

  /** Steps still possible at most: each source row, live worker and shutdown stage has a price. */
  function Measure(c: Config, s: State): nat
    requires s.fed <= |c.rows|
  {
    7 * (|c.rows| - s.fed) + (if s.feederDone then 0 else 1) + 6 * |s.jobs| + Sum(WorkerLoads(), s.workers)
    + 2 * |s.results| + Pending(s.writer) + ShutdownLeft(s.main)
  }

  lemma EffectGetsOn(c: Config, s: State, a: Action, t: State)
    requires Ordered(c, s) && Ordered(c, t) && Enabled(c, s, a) && Effect(c, s, a, t)
    ensures Measure(c, t) < Measure(c, s)
  {
    if a.Work? {
      WorkerGetsOn(c, s, a.w, a.op, t);
    }
  }

  lemma WorkerGetsOn(c: Config, s: State, w: nat, op: WorkerOp, t: State)
    requires Ordered(c, s) && Ordered(c, t) && WorkerEnabled(c, s, w, op) && WorkerEffect(c, s, w, op, t)
    ensures Measure(c, t) < Measure(c, s)
  {
    SumUpdate(WorkerLoads(), s.workers, w, t.workers[w]);
  }

  lemma MeasureDecreases(c: Config, s: State, a: Action)
    requires c.Valid() && Ordered(c, s) && Enabled(c, s, a)
    ensures Ordered(c, Step(c, s, a)) && Measure(c, Step(c, s, a)) < Measure(c, s)
  {
    OrderedStep(c, s, a);
    StepHasEffect(c, s, a);
    EffectGetsOn(c, s, a, Step(c, s, a));
  }

  // ---------------------------------------------------------------- progress

  /** No Encrypt call and no INSERT failed. */
  predicate Succeeds(a: Action) {
    match a
    case Work(_, EncryptPan(random)) => random.Some?
    case Work(_, EncryptCvv(random)) => random.Some?
    case Write(Flush(ok)) => ok
    case Write(FinalFlush(ok)) => ok
    case _ => true
  }

  /** No Encrypt call and no INSERT succeeded. */
  predicate NoSuccess(a: Action) {
    match a
    case Work(_, EncryptPan(random)) => random.None?
    case Work(_, EncryptCvv(random)) => random.None?
    case Write(Flush(ok)) => !ok
    case Write(FinalFlush(ok)) => !ok
    case _ => true
  }

  /** No reachable state is stuck before main has returned: this step is enabled, and so is one with better luck. */
  lemma Progress(c: Config, s: State, lucky: bool) returns (a: Action)
    requires c.Valid() && Ordered(c, s) && !s.main.Returned?
    ensures Enabled(c, s, a)
    ensures if lucky then Succeeds(a) else NoSuccess(a)
  {
    if w :| 0 <= w < |s.workers| && !s.workers[w].Exited? {
      a := WorkerProgress(c, s, w, lucky);
    } else if s.main.WaitWorkers? {
      a := Main(CloseResults);
    } else if s.writer.Finished? {
      a := Main(MainReturn);
    } else {
      var r := WriterProgress(c, s, lucky);
      a := Write(r);
    }
  }

  lemma WriterProgress(c: Config, s: State, lucky: bool) returns (r: WriterOp)
    requires !s.writer.Finished? && (s.results != [] || s.resultsClosed > 0)
    ensures WriterEnabled(c, s, r)
    ensures if lucky then Succeeds(Write(r)) else NoSuccess(Write(r))
  {
    if s.writer.Flushing? {
      r := Flush(lucky);
    } else if s.results != [] {
      r := Receive;
    } else {
      r := FinalFlush(lucky);
    }
  }

  lemma WorkerProgress(c: Config, s: State, w: nat, lucky: bool) returns (a: Action)
    requires c.Valid() && Ordered(c, s) && w < |s.workers| && !s.workers[w].Exited?
    ensures Enabled(c, s, a)
    ensures if lucky then Succeeds(a) else NoSuccess(a)
  {
    var random: Option<Nonce> := if lucky then Some(seq(NONCE_SIZE, _ => 0)) else None;
    match s.workers[w]
    case Holding(_) => a := Work(w, EncryptPan(random));
    case PanDone(_, _) => a := Work(w, EncryptCvv(random));
    case Sending(_) =>
      if |s.results| < c.resultsCap {
        a := Work(w, Send);
      } else {
        var r := WriterProgress(c, s, lucky);
        a := Write(r);
      }
    case Idle =>
      if s.jobs != [] {
        a := Work(w, Take);
      } else if s.feederDone {
        a := Work(w, Exit);
      } else if s.fed == |c.rows| {
        a := Feeder(CloseJobs);
      } else {
        a := Feeder(if c.rows[s.fed].Some? then Feed else SkipRow);
      }
  }

  // ---------------------------------------------------------------- runs

  /**
    Over every run: the invariants hold throughout and the run is no longer than its initial measure.
   */
  lemma {:induction false} RunKeeps(c: Config, s: State, actions: seq<Action>, t: State)
    requires c.Valid() && Inv(c, s) && IsRun(c, s, actions, t)
    ensures Inv(c, t) && |actions| + Measure(c, t) <= Measure(c, s)
    decreases |actions|
  {
    if actions != [] {
      var u := Step(c, s, actions[0]);
      MeasureDecreases(c, s, actions[0]);
      CountedStep(c, s, actions[0]);
      BatchedStep(c, s, actions[0]);
      ConservedStep(c, s, actions[0]);
      RunKeeps(c, u, actions[1..], t);
    }
  }

  /** Every run from the start, however scheduled, has at most 7 steps a source row, one a worker, and 4. */
  lemma RunsAreBounded(c: Config, actions: seq<Action>, t: State)
    requires c.Valid() && IsRun(c, Init(c), actions, t)
    ensures |actions| <= 7 * |c.rows| + c.workers + 4
    ensures !t.panicked && t.jobsClosed <= 1 && t.resultsClosed <= 1
  {
    InitInv(c);
    RunKeeps(c, Init(c), actions, t);
    SumOfEqual(WorkerLoads(), Init(c).workers, 1);
  }

  /** A run that cannot be continued has ended with main returning: there is no deadlock. */
  lemma StuckMeansReturned(c: Config, actions: seq<Action>, t: State)
    requires c.Valid() && IsRun(c, Init(c), actions, t)
    requires forall a :: !Enabled(c, t, a)
    ensures t.main.Returned?
  {
    InitInv(c);
    RunKeeps(c, Init(c), actions, t);
    if !t.main.Returned? {
      var a := Progress(c, t, true);
    }
  }

  /** When the writer flushes for the last time, every record that was ever sent has reached it. */
  lemma FinalFlushIsLast(c: Config, actions: seq<Action>, t: State, ok: bool)
    requires c.Valid() && IsRun(c, Init(c), actions, t) && Enabled(c, t, Write(FinalFlush(ok)))
    ensures t.fed == |c.rows| && t.jobs == [] && t.results == [] && AllExited(t.workers)
  {
    InitInv(c);
    RunKeeps(c, Init(c), actions, t);
    assert t.workers[0].Exited?;
  }

  /** At every moment, each INSERT issued so far has between 4 and 4 * batchSize parameters (2000 as shipped). */
  lemma StatementsFit(c: Config, actions: seq<Action>, t: State, i: nat)
    requires c.Valid() && IsRun(c, Init(c), actions, t) && i < |t.inserts|
    ensures 4 <= |InsertStatement.ParamsOf(t.inserts[i])| <= 4 * c.batchSize
  {
    InitInv(c);
    RunKeeps(c, Init(c), actions, t);
    InsertStatement.ParamCount(t.inserts[i]);
  }

  // ---------------------------------------------------------------- the outcome

  /** The cards of the source are those decrypted from these rows together with the dropped ones. */
  ghost predicate Partition(
      c: Config, stored: seq<EncryptedRecord>, rejected: seq<EncryptedRecord>, dropped: seq<Card>) {
    multiset(Somes(Cards(c))) ==
    multiset(Map(View(c.key), stored)) + multiset(Map(View(c.key), rejected)) + multiset(Somes(dropped))
  }

  lemma {:induction false} SomesLength(cards: seq<Card>)
    ensures |Somes(cards)| == |cards|
  {
    if cards != [] {
      SomesLength(cards[1..]);
    }
  }

  lemma FinalPartition(c: Config, t: State)
    requires c.Valid() && Inv(c, t) && t.main.Returned?
    ensures Partition(c, t.table, t.rejected, t.dropped)
  {
    forall x {
      FinalCount(c, t, x);
    }
  }

  lemma FinalCount(c: Config, t: State, x: Option<Card>)
    requires c.Valid() && Inv(c, t) && t.main.Returned?
    ensures multiset(Somes(Cards(c)))[x] ==
            multiset(Map(View(c.key), t.table))[x] + multiset(Map(View(c.key), t.rejected))[x]
            + multiset(Somes(t.dropped))[x]
  {
    var view := View(c.key);
    assert t.workers[0].Exited?;
    assert Count(c, view, t, x) == CardTally(Cards(c), x);
    assert Holders(view, t.workers, x) == {};
    CardTallyIsMultiplicity(Cards(c), x);
    CardTallyIsMultiplicity(t.dropped, x);
    TallyIsMultiplicity(view, t.table, x);
    TallyIsMultiplicity(view, t.rejected, x);
  }

  lemma PartitionSize(
      c: Config, stored: seq<EncryptedRecord>, rejected: seq<EncryptedRecord>, dropped: seq<Card>)
    requires Partition(c, stored, rejected, dropped)
    ensures |stored| + |rejected| + |dropped| == |Cards(c)|
  {
    MapLength(View(c.key), stored);
    MapLength(View(c.key), rejected);
    SomesLength(Cards(c));
    SomesLength(dropped);
    assert |multiset(Somes(Cards(c)))| == |Cards(c)|;
  }

  lemma FinalBatches(c: Config, t: State)
    requires c.Valid() && Counted(c, t) && Batched(t) && t.batch == [] && t.writer.Finished?
    ensures t.inserts == Chunks(t.received, c.batchSize)
    ensures multiset(t.received) == multiset(t.table) + multiset(t.rejected)
  {
    assert Flatten(t.inserts) + [] == Flatten(t.inserts);
    assert IsChunking(t.inserts, c.batchSize);
    ChunkingIsUnique(t.inserts, c.batchSize);
  }

  /**
    Whatever the interleaving and whatever failed: at the end the stored rows, the rows of failed
    INSERTs and the cards given up partition the source, every stored row decrypting to its card; the
    two counters add up to the source; the INSERTs were the received records cut into batches, and their
    rows are the stored and the rejected ones.
   */
  lemma EtlOutcome(c: Config, actions: seq<Action>, t: State)
    requires c.Valid() && IsRun(c, Init(c), actions, t) && t.main.Returned?
    ensures Partition(c, t.table, t.rejected, t.dropped)
    ensures t.processed == |t.table| && t.processed + t.errors == |Cards(c)|
    ensures t.jobsClosed == 1 && t.resultsClosed == 1 && AllExited(t.workers)
    ensures t.jobs == [] && t.results == [] && t.batch == []
    ensures t.inserts == Chunks(t.received, c.batchSize)
    ensures multiset(t.received) == multiset(t.table) + multiset(t.rejected)
  {
    InitInv(c);
    RunKeeps(c, Init(c), actions, t);
    FinalPartition(c, t);
    assert t.workers[0].Exited?;
    PartitionSize(c, t.table, t.rejected, t.dropped);
    FinalBatches(c, t);
  }

  lemma {:induction false} NothingGivenUp(c: Config, s: State, actions: seq<Action>, t: State)
    requires IsRun(c, s, actions, t) && (forall a :: a in actions ==> Succeeds(a))
    ensures t.dropped == s.dropped && t.rejected == s.rejected
    decreases |actions|
  {
    if actions != [] {
      assert Succeeds(actions[0]);
      var u := Step(c, s, actions[0]);
      assert u.dropped == s.dropped && u.rejected == s.rejected;
      NothingGivenUp(c, u, actions[1..], t);
    }
  }

  /** Without failures the destination decrypts to exactly the source, in some order. */
  lemma CleanRunStoresEverything(c: Config, actions: seq<Action>, t: State)
    requires c.Valid() && IsRun(c, Init(c), actions, t) && t.main.Returned?
    requires forall a :: a in actions ==> Succeeds(a)
    ensures multiset(Map(View(c.key), t.table)) == multiset(Somes(Cards(c)))
    ensures t.errors == 0 && t.processed == |Cards(c)|
  {
    EtlOutcome(c, actions, t);
    NothingGivenUp(c, Init(c), actions, t);
    InitInv(c);
    RunKeeps(c, Init(c), actions, t);
  }

  // ---------------------------------------------------------------- the two extremes

  lemma {:induction false} RunOn(c: Config, s: State, lucky: bool) returns (actions: seq<Action>, t: State)
    requires c.Valid() && Ordered(c, s)
    ensures IsRun(c, s, actions, t) && t.main.Returned?
    ensures forall a :: a in actions ==> if lucky then Succeeds(a) else NoSuccess(a)
    decreases Measure(c, s)
  {
    if s.main.Returned? {
      actions, t := [], s;
    } else {
      var a := Progress(c, s, lucky);
      MeasureDecreases(c, s, a);
      var rest;
      rest, t := RunOn(c, Step(c, s, a), lucky);
      actions := [a] + rest;
      assert actions[1..] == rest;
    }
  }

  /** Every source can be stored completely ... */
  lemma CleanRunExists(c: Config) returns (actions: seq<Action>, t: State)
    requires c.Valid()
    ensures IsRun(c, Init(c), actions, t) && t.main.Returned?
    ensures multiset(Map(View(c.key), t.table)) == multiset(Somes(Cards(c))) && t.errors == 0
  {
    InitInv(c);
    actions, t := RunOn(c, Init(c), true);
    CleanRunStoresEverything(c, actions, t);
  }

  /** ... and can be lost completely, every card being counted as an error. */
  lemma WorstRunExists(c: Config) returns (actions: seq<Action>, t: State)
    requires c.Valid()
    ensures IsRun(c, Init(c), actions, t) && t.main.Returned?
    ensures t.table == [] && t.processed == 0 && t.errors == |Cards(c)|
  {
    InitInv(c);
    actions, t := RunOn(c, Init(c), false);
    assert !NoSuccess(Write(Flush(true))) && !NoSuccess(Write(FinalFlush(true)));
    FailedInsertsStoreNothing(c, actions, t);
    EtlOutcome(c, actions, t);
  }

  // ---------------------------------------------------------------- single steps, told outright

  /** A call or an INSERT that can be made can end either way. */
  lemma OutcomesAreFree(c: Config, s: State, w: nat, a: Option<Nonce>, b: Option<Nonce>)
    ensures Enabled(c, s, Work(w, EncryptPan(a))) <==> Enabled(c, s, Work(w, EncryptPan(b)))
    ensures Enabled(c, s, Work(w, EncryptCvv(a))) <==> Enabled(c, s, Work(w, EncryptCvv(b)))
    ensures Enabled(c, s, Write(Flush(true))) <==> Enabled(c, s, Write(Flush(false)))
    ensures Enabled(c, s, Write(FinalFlush(true))) <==> Enabled(c, s, Write(FinalFlush(false)))
  {
  }

  /** An INSERT's verdict decides what becomes of exactly its batch: stored and processed, or lost and an error. */
  lemma VerdictDecides(c: Config, s: State, ok: bool, r: WriterOp)
    requires (r == Flush(ok) || r == FinalFlush(ok)) && Enabled(c, s, Write(r))
    ensures var t := Step(c, s, Write(r));
            && t.batch == [] && t.received == s.received && t.dropped == s.dropped
            && (s.batch == [] ==> t.inserts == s.inserts && t.table == s.table
                                  && t.processed == s.processed && t.errors == s.errors)
            && (s.batch != [] ==> t.inserts == s.inserts + [s.batch])
            && (s.batch != [] && ok ==> t.table == s.table + s.batch && t.rejected == s.rejected
                                        && t.processed == s.processed + |s.batch| && t.errors == s.errors)
            && (s.batch != [] && !ok ==> t.table == s.table && t.rejected == s.rejected + s.batch
                                         && t.processed == s.processed && t.errors == s.errors + |s.batch|)
  {
  }

  /** A failed Encrypt call gives the card up and counts one error. */
  lemma FailureGivesUp(c: Config, s: State, w: nat, op: WorkerOp)
    requires (op == EncryptPan(None) || op == EncryptCvv(None)) && Enabled(c, s, Work(w, op))
    ensures var t := Step(c, s, Work(w, op));
            && t.errors == s.errors + 1 && t.dropped == s.dropped + [s.workers[w].card]
            && t.workers == s.workers[w := Idle] && t.processed == s.processed && t.table == s.table
  {
  }

  /** A successful one goes on with the PAN's answer, and then with the record made from both answers. */
  lemma SuccessGoesOn(c: Config, s: State, w: nat, n: Nonce)
    ensures Enabled(c, s, Work(w, EncryptPan(Some(n)))) ==>
              var card, t := s.workers[w].card, Step(c, s, Work(w, EncryptPan(Some(n))));
              t.errors == s.errors && t.workers == s.workers[w := PanDone(card, Sealed(c.key.seal(n, card.cardNo), n))]
    ensures Enabled(c, s, Work(w, EncryptCvv(Some(n)))) ==>
              var card, pan, t := s.workers[w].card, s.workers[w].pan, Step(c, s, Work(w, EncryptCvv(Some(n))));
              && t.errors == s.errors
              && t.workers == s.workers[w := Sending(EncryptedRecord(
                                card.id, Base64.Encode(pan.nonce + pan.ciphertext),
                                Base64.Encode(n + c.key.seal(n, card.cvv)), card.other))]
  {
  }

  /** The cards of a source are its rows that scan, each as often as it occurs. */
  lemma CardsAreScannableRows(c: Config, x: Card)
    ensures multiset(Cards(c))[x] == |set i: nat | i < |c.rows| && c.rows[i] == Some(x)|
  {
    CardsFromAre(c.rows, 0, x);
    assert RowsFrom(c.rows, 0, x) == set i: nat | i < |c.rows| && c.rows[i] == Some(x);
  }

  ghost function RowsFrom(rows: seq<Option<Card>>, i: nat, x: Card): set<nat> {
    set j: nat | i <= j < |rows| && rows[j] == Some(x)
  }

  lemma {:induction false} CardsFromAre(rows: seq<Option<Card>>, i: nat, x: Card)
    requires i <= |rows|
    ensures multiset(CardsFrom(rows, i))[x] == |RowsFrom(rows, i, x)|
    decreases |rows| - i
  {
    if i == |rows| {
      assert RowsFrom(rows, i, x) == {};
    } else {
      CardsFromAre(rows, i + 1, x);
      NextCard(rows, i, Some(x));
      assert i !in RowsFrom(rows, i + 1, x);
      assert RowsFrom(rows, i, x) == RowsFrom(rows, i + 1, x) + if rows[i] == Some(x) then {i} else {};
    }
  }

  /** When no INSERT succeeds nothing is stored, and all that was received counts as errors. */
  lemma FailedInsertsStoreNothing(c: Config, actions: seq<Action>, t: State)
    requires c.Valid() && IsRun(c, Init(c), actions, t)
    requires Write(Flush(true)) !in actions && Write(FinalFlush(true)) !in actions
    ensures t.table == [] && t.processed == 0 && t.errors == |t.dropped| + |t.rejected|
  {
    InitInv(c);
    RunKeeps(c, Init(c), actions, t);
    TableUnmoved(c, Init(c), actions, t);
  }

  lemma {:induction false} TableUnmoved(c: Config, s: State, actions: seq<Action>, t: State)
    requires IsRun(c, s, actions, t) && Write(Flush(true)) !in actions && Write(FinalFlush(true)) !in actions
    ensures t.table == s.table
    decreases |actions|
  {
    if actions != [] {
      StepHasEffect(c, s, actions[0]);
      TableUnmoved(c, Step(c, s, actions[0]), actions[1..], t);
    }
  }
}
