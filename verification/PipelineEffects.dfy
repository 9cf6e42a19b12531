/** The steps of the pipeline as a relation: what each action changes, field by field. */
module PipelineEffects {
  import opened Records
  import opened Pipeline

  // What a step leaves alone, by concern.

  predicate SameSource(s: State, t: State) {
    t.fed == s.fed && t.feederDone == s.feederDone && t.jobsClosed == s.jobsClosed
  }

  predicate SameChannels(s: State, t: State) {
    t.jobs == s.jobs && t.results == s.results && t.resultsClosed == s.resultsClosed
  }

  predicate SameWriter(s: State, t: State) {
    && t.writer == s.writer && t.batch == s.batch && t.received == s.received && t.inserts == s.inserts
    && t.table == s.table && t.rejected == s.rejected && t.processed == s.processed
  }

  predicate SameErrors(s: State, t: State) {
    t.errors == s.errors && t.dropped == s.dropped
  }

  predicate FeederEffect(c: Config, s: State, f: FeederOp, t: State)
    requires FeederEnabled(c, s, f)
  {
    && SameWriter(s, t) && SameErrors(s, t) && t.workers == s.workers && t.main == s.main
    && t.results == s.results && t.resultsClosed == s.resultsClosed
    && match f
       case Feed => Fed(c, s, t)
       case SkipRow =>
         t.fed == s.fed + 1 && t.feederDone == s.feederDone && t.jobsClosed == s.jobsClosed && t.jobs == s.jobs
         && t.panicked == s.panicked
       case CloseJobs => t.fed == s.fed && t.jobs == s.jobs && JobsClosed(s, t)
  }

  predicate Fed(c: Config, s: State, t: State)
    requires s.fed < |c.rows| && c.rows[s.fed].Some?
  {
    && t.feederDone == s.feederDone && t.jobsClosed == s.jobsClosed
    && (if s.jobsClosed > 0 then t.panicked && t.fed == s.fed && t.jobs == s.jobs
        else t.panicked == s.panicked && t.fed == s.fed + 1 && t.jobs == s.jobs + [c.rows[s.fed].value])
  }

  predicate JobsClosed(s: State, t: State) {
    if s.jobsClosed > 0 then t.panicked && t.feederDone == s.feederDone && t.jobsClosed == s.jobsClosed
    else t.panicked == s.panicked && t.feederDone && t.jobsClosed == 1
  }

  predicate WorkerEffect(c: Config, s: State, w: nat, op: WorkerOp, t: State)
    requires WorkerEnabled(c, s, w, op)
  {
    && SameSource(s, t) && SameWriter(s, t) && t.main == s.main && t.resultsClosed == s.resultsClosed
    && (if Fails(op) then GivenUp(s, s.workers[w].card, t) else SameErrors(s, t))
    && t.jobs == (if op.Take? then s.jobs[1..] else s.jobs)
    && (if op.Send? then Sent(s, w, t)
        else t.panicked == s.panicked && t.results == s.results && t.workers == s.workers[w := Moved(c, s, w, op)])
  }

  predicate Fails(op: WorkerOp) {
    (op.EncryptPan? || op.EncryptCvv?) && op.random.None?
  }

  predicate GivenUp(s: State, card: Card, t: State) {
    t.errors == s.errors + 1 && t.dropped == s.dropped + [card]
  }

  predicate Sent(s: State, w: nat, t: State)
    requires w < |s.workers| && s.workers[w].Sending?
  {
    if s.resultsClosed > 0 then t.panicked && t.results == s.results && t.workers == s.workers
    else t.panicked == s.panicked && t.results == s.results + [s.workers[w].rec] && t.workers == s.workers[w := Idle]
  }

  function Moved(c: Config, s: State, w: nat, op: WorkerOp): Worker
    requires WorkerEnabled(c, s, w, op) && !op.Send?
  {
    match op
    case Take => Holding(s.jobs[0])
    case EncryptPan(random) =>
      var card := s.workers[w].card;
      if random.None? then Idle else PanDone(card, SealField(c.key, random.value, card.cardNo))
    case EncryptCvv(random) =>
      var card, pan := s.workers[w].card, s.workers[w].pan;
      if random.None? then Idle else Sending(Assemble(card, pan, SealField(c.key, random.value, card.cvv)))
    case Exit => Exited
  }

  predicate WriterEffect(c: Config, s: State, r: WriterOp, t: State)
    requires WriterEnabled(c, s, r)
  {
    && SameSource(s, t) && t.workers == s.workers && t.main == s.main && t.panicked == s.panicked
    && t.jobs == s.jobs && t.resultsClosed == s.resultsClosed && t.dropped == s.dropped
    && match r
       case Receive => Received(c, s, t)
       case Flush(ok) => Flushed(s, ok, t) && t.writer == Receiving
       case FinalFlush(ok) => Flushed(s, ok, t) && t.writer == Finished
  }

  predicate Received(c: Config, s: State, t: State)
    requires s.results != []
  {
    && t.results == s.results[1..] && t.received == s.received + [s.results[0]] && t.batch == s.batch + [s.results[0]]
    && t.writer == (if |t.batch| >= c.batchSize then Flushing else Receiving)
    && t.inserts == s.inserts && t.table == s.table && t.rejected == s.rejected
    && t.processed == s.processed && t.errors == s.errors
  }

  predicate Flushed(s: State, ok: bool, t: State) {
    && t.batch == [] && t.results == s.results && t.received == s.received
    && t.inserts == s.inserts + (if s.batch == [] then [] else [s.batch])
    && t.table == (if ok then s.table + s.batch else s.table)
    && t.rejected == (if ok then s.rejected else s.rejected + s.batch)
    && t.processed == (if ok then s.processed + |s.batch| else s.processed)
    && t.errors == (if ok then s.errors else s.errors + |s.batch|)
  }

  ghost predicate MainEffect(s: State, m: MainOp, t: State)
    requires MainEnabled(s, m)
  {
    && SameSource(s, t) && SameWriter(s, t) && SameErrors(s, t) && t.workers == s.workers
    && t.jobs == s.jobs && t.results == s.results
    && match m
       case CloseResults => ResultsClosed(s, t)
       case MainReturn => t.main == Returned && t.resultsClosed == s.resultsClosed && t.panicked == s.panicked
  }

  predicate ResultsClosed(s: State, t: State) {
    if s.resultsClosed > 0 then t.panicked && t.main == s.main && t.resultsClosed == s.resultsClosed
    else t.panicked == s.panicked && t.main == WaitWriter && t.resultsClosed == 1
  }

  ghost predicate Effect(c: Config, s: State, a: Action, t: State)
    requires Enabled(c, s, a)
  {
    match a
    case Feeder(f) => FeederEffect(c, s, f, t)
    case Work(w, op) => WorkerEffect(c, s, w, op, t)
    case Write(r) => WriterEffect(c, s, r, t)
    case Main(m) => MainEffect(s, m, t)
  }

  // ---------------------------------------------------------------- the steps have these effects

  lemma FeederHasEffect(c: Config, s: State, f: FeederOp)
    requires FeederEnabled(c, s, f)
    ensures FeederEffect(c, s, f, FeederStep(c, s, f))
  {
  }

  lemma EncryptEffect(c: Config, s: State, w: nat, op: WorkerOp)
    requires WorkerEnabled(c, s, w, op) && (op.EncryptPan? || op.EncryptCvv?)
    ensures WorkerEffect(c, s, w, op, WorkerStep(c, s, w, op))
  {
  }

  lemma ChannelEffect(c: Config, s: State, w: nat, op: WorkerOp)
    requires WorkerEnabled(c, s, w, op) && (op.Take? || op.Send? || op.Exit?)
    ensures WorkerEffect(c, s, w, op, WorkerStep(c, s, w, op))
  {
  }

  lemma WorkerHasEffect(c: Config, s: State, w: nat, op: WorkerOp)
    requires WorkerEnabled(c, s, w, op)
    ensures WorkerEffect(c, s, w, op, WorkerStep(c, s, w, op))
  {
    if op.EncryptPan? || op.EncryptCvv? {
      EncryptEffect(c, s, w, op);
    } else {
      ChannelEffect(c, s, w, op);
    }
  }

  lemma FlushHasEffect(s: State, ok: bool)
    ensures Flushed(s, ok, FlushBatch(s, ok))
  {
  }

  lemma WriterHasEffect(c: Config, s: State, r: WriterOp)
    requires WriterEnabled(c, s, r)
    ensures WriterEffect(c, s, r, WriterStep(c, s, r))
  {
    if !r.Receive? {
      FlushHasEffect(s, r.ok);
    }
  }

  lemma MainHasEffect(s: State, m: MainOp)
    requires MainEnabled(s, m)
    ensures MainEffect(s, m, MainStep(s, m))
  {
  }

  lemma StepHasEffect(c: Config, s: State, a: Action)
    requires Enabled(c, s, a)
    ensures Effect(c, s, a, Step(c, s, a))
  {
    match a
    case Feeder(f) => FeederHasEffect(c, s, f);
    case Work(w, op) => WorkerHasEffect(c, s, w, op);
    case Write(r) => WriterHasEffect(c, s, r);
    case Main(m) => MainHasEffect(s, m);
  }
}
