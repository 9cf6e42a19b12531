/** The invariants of the pipeline hold at the start and after every step. */
module PipelineSafety {
  import opened Basics
  import opened Records
  import opened Sequences
  import opened Pipeline
  import opened PipelineEffects

  lemma InitInv(c: Config)
    requires c.Valid()
    ensures Inv(c, Init(c))
  {
    var view := View(c.key);
    forall x ensures Count(c, view, Init(c), x) == CardTally(Cards(c), x) {
      assert Holders(view, Init(c).workers, x) == {};
    }
  }

  // ---------------------------------------------------------------- shutdown order

  lemma OrderedStep(c: Config, s: State, a: Action)
    requires c.Valid() && Ordered(c, s) && Enabled(c, s, a)
    ensures Ordered(c, Step(c, s, a))
  {
    StepHasEffect(c, s, a);
    EffectKeepsOrder(c, s, a, Step(c, s, a));
  }

  lemma EffectKeepsOrder(c: Config, s: State, a: Action, t: State)
    requires c.Valid() && Ordered(c, s) && Enabled(c, s, a) && Effect(c, s, a, t)
    ensures Ordered(c, t)
  {
    if a.Work? {
      WorkerKeepsOrder(c, s, a.w, a.op, t);
    }
  }

  lemma WorkerKeepsOrder(c: Config, s: State, w: nat, op: WorkerOp, t: State)
    requires c.Valid() && Ordered(c, s) && WorkerEnabled(c, s, w, op) && WorkerEffect(c, s, w, op, t)
    ensures Ordered(c, t)
  {
    assert !s.workers[w].Exited?;
    assert s.resultsClosed == 0;
  }

  // ---------------------------------------------------------------- counters and batches

  lemma CountedStep(c: Config, s: State, a: Action)
    requires c.Valid() && Ordered(c, s) && Counted(c, s) && Enabled(c, s, a)
    ensures Counted(c, Step(c, s, a))
  {
    StepHasEffect(c, s, a);
    EffectKeepsCount(c, s, a, Step(c, s, a));
  }

  lemma EffectKeepsCount(c: Config, s: State, a: Action, t: State)
    requires c.Valid() && Counted(c, s) && Enabled(c, s, a) && Effect(c, s, a, t)
    ensures Counted(c, t)
  {
  }

  lemma BatchedStep(c: Config, s: State, a: Action)
    requires Batched(s) && Enabled(c, s, a)
    ensures Batched(Step(c, s, a))
  {
    StepHasEffect(c, s, a);
    if a.Write? {
      WriterKeepsBatches(c, s, a.r, Step(c, s, a));
    }
  }

  lemma WriterKeepsBatches(c: Config, s: State, r: WriterOp, t: State)
    requires Batched(s) && WriterEnabled(c, s, r) && WriterEffect(c, s, r, t)
    ensures Batched(t)
  {
    match r
    case Receive => OneMoreReceived(s.inserts, s.batch, s.received, s.results[0]);
    case Flush(ok) => FlushKeepsBatches(s, ok, t);
    case FinalFlush(ok) => FlushKeepsBatches(s, ok, t);
  }

  lemma FlushKeepsBatches(s: State, ok: bool, t: State)
    requires Batched(s) && Flushed(s, ok, t) && t.received == s.received
    ensures Batched(t)
  {
    if s.batch == [] {
      assert s.inserts + [] == s.inserts && s.table + [] == s.table && s.rejected + [] == s.rejected;
    } else {
      OneMoreInsert(s.inserts, s.batch, s.received);
      OneMoreAnswer(s.inserts, s.batch, s.table, s.rejected, ok);
    }
  }

  lemma OneMoreReceived(
      inserts: seq<seq<EncryptedRecord>>, batch: seq<EncryptedRecord>, received: seq<EncryptedRecord>,
      r: EncryptedRecord)
    requires SentInOrder(inserts, batch, received)
    ensures SentInOrder(inserts, batch + [r], received + [r])
  {
    assert Flatten(inserts) + (batch + [r]) == Flatten(inserts) + batch + [r];
  }

  lemma OneMoreInsert(
      inserts: seq<seq<EncryptedRecord>>, batch: seq<EncryptedRecord>, received: seq<EncryptedRecord>)
    requires SentInOrder(inserts, batch, received)
    ensures SentInOrder(inserts + [batch], [], received)
  {
    FlattenAppend(inserts, batch);
    assert Flatten(inserts + [batch]) + [] == received;
  }

  lemma OneMoreAnswer(
      inserts: seq<seq<EncryptedRecord>>, batch: seq<EncryptedRecord>,
      table: seq<EncryptedRecord>, rejected: seq<EncryptedRecord>, ok: bool)
    requires Answered(inserts, table, rejected)
    ensures Answered(inserts + [batch], if ok then table + batch else table, if ok then rejected else rejected + batch)
  {
    FlattenAppend(inserts, batch);
  }

  // ---------------------------------------------------------------- conservation

  lemma HoldersUpdate(
      view: EncryptedRecord -> Option<Card>, ws: seq<Worker>, w: nat, v: Worker, x: Option<Card>)
    requires w < |ws|
    ensures |Holders(view, ws[w := v], x)| + (if Has(view, ws[w], x) then 1 else 0)
            == |Holders(view, ws, x)| + (if Has(view, v, x) then 1 else 0)
  {
    OthersHold(view, ws, w, v, x);
    WithoutOne(Holders(view, ws, x), w);
    WithoutOne(Holders(view, ws[w := v], x), w);
  }

  lemma OthersHold(view: EncryptedRecord -> Option<Card>, ws: seq<Worker>, w: nat, v: Worker, x: Option<Card>)
    requires w < |ws|
    ensures Holders(view, ws, x) - {w} == Holders(view, ws[w := v], x) - {w}
    ensures w in Holders(view, ws, x) <==> Has(view, ws[w], x)
    ensures w in Holders(view, ws[w := v], x) <==> Has(view, v, x)
  {
  }

  lemma ConservedStep(c: Config, s: State, a: Action)
    requires c.Valid() && Ordered(c, s) && Conserved(c, s) && Enabled(c, s, a)
    ensures Conserved(c, Step(c, s, a))
  {
    StepHasEffect(c, s, a);
    EffectConserves(c, s, a, Step(c, s, a));
  }

  lemma EffectConserves(c: Config, s: State, a: Action, t: State)
    requires c.Valid() && Ordered(c, s) && Conserved(c, s) && Enabled(c, s, a) && Effect(c, s, a, t)
    ensures Conserved(c, t)
  {
    if a.Work? && a.op.EncryptCvv? && a.op.random.Some? {
      AssembledIsCard(c.key, s.workers[a.w].card, s.workers[a.w].pan, a.op.random.value);
    }
    forall x ensures Count(c, View(c.key), t, x) == CardTally(Cards(c), x) {
      EffectCount(c, View(c.key), s, a, t, x);
    }
  }

  lemma EffectCount(
      c: Config, view: EncryptedRecord -> Option<Card>, s: State, a: Action, t: State, x: Option<Card>)
    requires Ordered(c, s) && Enabled(c, s, a) && Effect(c, s, a, t)
    requires a.Work? ==> ViewsAssembled(c, view, s, a.w, a.op)
    ensures Count(c, view, t, x) == Count(c, view, s, x)
  {
    match a
    case Feeder(f) => FeederConserves(c, view, s, f, t, x);
    case Work(w, op) => WorkerConserves(c, view, s, w, op, t, x);
    case Write(r) => WriterConserves(c, view, s, r, t, x);
    case Main(m) =>
  }

  lemma NextCard(rows: seq<Option<Card>>, i: nat, x: Option<Card>)
    requires i < |rows|
    ensures CardTally(CardsFrom(rows, i), x) ==
            CardTally(CardsFrom(rows, i + 1), x) + if rows[i].Some? && rows[i] == x then 1 else 0
  {
    if rows[i].Some? {
      CardTallyConcat([rows[i].value], CardsFrom(rows, i + 1), x);
      CardTallyOne(rows[i].value, x);
    }
  }

  lemma FeederConserves(
      c: Config, view: EncryptedRecord -> Option<Card>, s: State, f: FeederOp, t: State, x: Option<Card>)
    requires FeederEnabled(c, s, f) && FeederEffect(c, s, f, t)
    ensures Count(c, view, t, x) == Count(c, view, s, x)
  {
    match f
    case Feed =>
      if s.jobsClosed == 0 {
        FeedConserves(c, view, s, t, c.rows[s.fed].value, x);
      }
    case SkipRow => SkipConserves(c, view, s, t, x);
    case CloseJobs =>
  }

  lemma FeedConserves(
      c: Config, view: EncryptedRecord -> Option<Card>, s: State, t: State, card: Card, x: Option<Card>)
    requires s.fed < |c.rows| && c.rows[s.fed] == Some(card) && t.fed == s.fed + 1 && t.jobs == s.jobs + [card]
    requires SameWriter(s, t) && SameErrors(s, t) && t.workers == s.workers && t.results == s.results
    ensures Count(c, view, t, x) == Count(c, view, s, x)
  {
    NextCard(c.rows, s.fed, x);
    CardTallyAppend(s.jobs, card, x);
  }

  lemma SkipConserves(c: Config, view: EncryptedRecord -> Option<Card>, s: State, t: State, x: Option<Card>)
    requires s.fed < |c.rows| && c.rows[s.fed].None? && t.fed == s.fed + 1 && t.jobs == s.jobs
    requires SameWriter(s, t) && SameErrors(s, t) && t.workers == s.workers && t.results == s.results
    ensures Count(c, view, t, x) == Count(c, view, s, x)
  {
    NextCard(c.rows, s.fed, x);
  }

  /** The view sees the record assembled by this step as the card it was made from. */
  predicate ViewsAssembled(
      c: Config, view: EncryptedRecord -> Option<Card>, s: State, w: nat, op: WorkerOp)
    requires WorkerEnabled(c, s, w, op)
  {
    op.EncryptCvv? && op.random.Some? ==> view(PipelineEffects.Moved(c, s, w, op).rec) == Some(s.workers[w].card)
  }

  lemma WorkerConserves(
      c: Config, view: EncryptedRecord -> Option<Card>, s: State, w: nat, op: WorkerOp, t: State, x: Option<Card>)
    requires WorkerEnabled(c, s, w, op) && WorkerEffect(c, s, w, op, t) && ViewsAssembled(c, view, s, w, op)
    ensures Count(c, view, t, x) == Count(c, view, s, x)
  {
    match op
    case Take =>
      CardTallyHead(s.jobs, x);
      HoldersUpdate(view, s.workers, w, Holding(s.jobs[0]), x);
    case Send => SendConserves(c, view, s, w, t, x);
    case Exit => HoldersUpdate(view, s.workers, w, Exited, x);
    case _ => EncryptConserves(c, view, s, w, op, t, x);
  }

  lemma EncryptConserves(
      c: Config, view: EncryptedRecord -> Option<Card>, s: State, w: nat, op: WorkerOp, t: State, x: Option<Card>)
    requires WorkerEnabled(c, s, w, op) && WorkerEffect(c, s, w, op, t) && ViewsAssembled(c, view, s, w, op)
    requires op.EncryptPan? || op.EncryptCvv?
    ensures Count(c, view, t, x) == Count(c, view, s, x)
  {
    HoldersUpdate(view, s.workers, w, Moved(c, s, w, op), x);
    if Fails(op) {
      CardTallyConcat(s.dropped, [s.workers[w].card], x);
      CardTallyOne(s.workers[w].card, x);
    }
  }

  lemma SendConserves(
      c: Config, view: EncryptedRecord -> Option<Card>, s: State, w: nat, t: State, x: Option<Card>)
    requires WorkerEnabled(c, s, w, Send) && WorkerEffect(c, s, w, Send, t)
    ensures Count(c, view, t, x) == Count(c, view, s, x)
  {
    var rec := s.workers[w].rec;
    HoldersUpdate(view, s.workers, w, Idle, x);
    TallyConcat(view, s.results, [rec], x);
    TallyOne(view, rec, x);
  }

  lemma WriterConserves(
      c: Config, view: EncryptedRecord -> Option<Card>, s: State, r: WriterOp, t: State, x: Option<Card>)
    requires WriterEnabled(c, s, r) && WriterEffect(c, s, r, t)
    ensures Count(c, view, t, x) == Count(c, view, s, x)
  {
    if r.Receive? {
      TallyConcat(view, s.batch, [s.results[0]], x);
      TallyOne(view, s.results[0], x);
    } else {
      TallyConcat(view, if r.ok then s.table else s.rejected, s.batch, x);
    }
  }
}
