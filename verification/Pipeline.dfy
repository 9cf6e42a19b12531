/**
  The ETL pipeline as a labelled transition system: one feeder, any number of workers and one batch
  writer over two bounded channels, and the main goroutine that orders the shutdown. An action is one
  channel operation, remote call or counter update of one goroutine; a run is any interleaving.
  Outcomes of Encrypt and of INSERT are chosen by the action (None, false: it failed).
 */
module Pipeline {
  import opened Basics
  import opened Aead
  import opened Records
  import opened Sequences

  /** rows[i] is None for a source row whose Scan fails. */
  datatype Config = Config(
    rows: seq<Option<Card>>, workers: nat, jobsCap: nat, resultsCap: nat, batchSize: nat, key: Cipher)
  {
    ghost predicate Valid() {
      workers >= 1 && jobsCap >= 1 && resultsCap >= 1 && batchSize >= 1 && key.Lawful()
    }
  }

  datatype Worker =
    | Idle
    | Holding(card: Card)
    | PanDone(card: Card, pan: Sealed)
    | Sending(rec: EncryptedRecord)
    | Exited

  datatype Writer = Receiving | Flushing | Finished

  datatype MainPc = WaitWorkers | WaitWriter | Returned

  /**
    jobsClosed and resultsClosed count the close calls; table holds the rows this run has added to the
    destination. dropped (cards whose encryption failed), rejected (rows of failed INSERTs), received (what
    the writer took from the channel) and inserts (the batch of every INSERT, successful or not) are
    histories: the program keeps only the counters.
   */
  datatype State = State(
    fed: nat, feederDone: bool,
    jobs: seq<Card>, jobsClosed: nat,
    workers: seq<Worker>,
    results: seq<EncryptedRecord>, resultsClosed: nat,
    writer: Writer, batch: seq<EncryptedRecord>,
    main: MainPc,
    processed: nat, errors: nat,
    table: seq<EncryptedRecord>,
    dropped: seq<Card>, rejected: seq<EncryptedRecord>,
    received: seq<EncryptedRecord>, inserts: seq<seq<EncryptedRecord>>,
    panicked: bool)

  // The operations of each kind of goroutine. random is None when the Encrypt call fails.

  datatype FeederOp = Feed | SkipRow | CloseJobs

  datatype WorkerOp = Take | EncryptPan(random: Option<Nonce>) | EncryptCvv(random: Option<Nonce>) | Send | Exit

  datatype WriterOp = Receive | Flush(ok: bool) | FinalFlush(ok: bool)

  datatype MainOp = CloseResults | MainReturn

  datatype Action = Feeder(f: FeederOp) | Work(w: nat, op: WorkerOp) | Write(r: WriterOp) | Main(m: MainOp)

  function Init(c: Config): State {
    State(0, false, [], 0, seq(c.workers, _ => Idle), [], 0,
          Receiving, [], WaitWorkers, 0, 0, [], [], [], [], [], false)
  }

  ghost predicate AllExited(ws: seq<Worker>) {
    forall i :: 0 <= i < |ws| ==> ws[i].Exited?
  }

  // Feeder: feedRecords and the close of jobs after it.

  predicate FeederEnabled(c: Config, s: State, f: FeederOp) {
    match f
    case Feed => s.fed < |c.rows| && c.rows[s.fed].Some? && (s.jobsClosed > 0 || |s.jobs| < c.jobsCap)
    case SkipRow => s.fed < |c.rows| && c.rows[s.fed].None?
    case CloseJobs => s.fed == |c.rows| && !s.feederDone
  }

  function FeederStep(c: Config, s: State, f: FeederOp): State
    requires FeederEnabled(c, s, f)
  {
    match f
    case Feed =>
      if s.jobsClosed > 0 then s.(panicked := true)
      else s.(fed := s.fed + 1, jobs := s.jobs + [c.rows[s.fed].value])
    case SkipRow => s.(fed := s.fed + 1)
    case CloseJobs =>
      if s.jobsClosed > 0 then s.(panicked := true)
      else s.(feederDone := true, jobsClosed := s.jobsClosed + 1)
  }

  // Worker: the range loop over jobs.

  predicate WorkerEnabled(c: Config, s: State, w: nat, op: WorkerOp) {
    w < |s.workers| &&
    match op
    case Take => s.workers[w].Idle? && s.jobs != []
    case EncryptPan(_) => s.workers[w].Holding?
    case EncryptCvv(_) => s.workers[w].PanDone?
    case Send => s.workers[w].Sending? && (s.resultsClosed > 0 || |s.results| < c.resultsCap)
    case Exit => s.workers[w].Idle? && s.jobs == [] && s.jobsClosed > 0
  }

  function WorkerStep(c: Config, s: State, w: nat, op: WorkerOp): State
    requires WorkerEnabled(c, s, w, op)
  {
    match op
    case Take => s.(workers := s.workers[w := Holding(s.jobs[0])], jobs := s.jobs[1..])
    case EncryptPan(random) =>
      var card := s.workers[w].card;
      if random.None? then GiveUp(s, w, card)
      else s.(workers := s.workers[w := PanDone(card, SealField(c.key, random.value, card.cardNo))])
    case EncryptCvv(random) =>
      var card, pan := s.workers[w].card, s.workers[w].pan;
      if random.None? then GiveUp(s, w, card)
      else s.(workers := s.workers[w := Sending(Assemble(card, pan, SealField(c.key, random.value, card.cvv)))])
    case Send =>
      if s.resultsClosed > 0 then s.(panicked := true)
      else s.(workers := s.workers[w := Idle], results := s.results + [s.workers[w].rec])
    case Exit => s.(workers := s.workers[w := Exited])
  }

  function GiveUp(s: State, w: nat, card: Card): State
    requires w < |s.workers|
  {
    s.(workers := s.workers[w := Idle], errors := s.errors + 1, dropped := s.dropped + [card])
  }

  // Writer: batchWriter.

  predicate WriterEnabled(c: Config, s: State, r: WriterOp) {
    match r
    case Receive => s.writer.Receiving? && s.results != []
    case Flush(_) => s.writer.Flushing?
    case FinalFlush(_) => s.writer.Receiving? && s.results == [] && s.resultsClosed > 0
  }

  function WriterStep(c: Config, s: State, r: WriterOp): State
    requires WriterEnabled(c, s, r)
  {
    match r
    case Receive =>
      var batch := s.batch + [s.results[0]];
      s.(results := s.results[1..], received := s.received + [s.results[0]], batch := batch,
         writer := if |batch| >= c.batchSize then Flushing else Receiving)
    case Flush(ok) => FlushBatch(s, ok).(writer := Receiving)
    case FinalFlush(ok) => FlushBatch(s, ok).(writer := Finished)
  }

  /** The flush closure: nothing for an empty batch, otherwise one INSERT and one counter update. */
  function FlushBatch(s: State, ok: bool): State {
    if s.batch == [] then s
    else
      var t := s.(batch := [], inserts := s.inserts + [s.batch]);
      if ok then t.(processed := s.processed + |s.batch|, table := s.table + s.batch)
      else t.(errors := s.errors + |s.batch|, rejected := s.rejected + s.batch)
  }

  // Main: the tail of runETL.

  ghost predicate MainEnabled(s: State, m: MainOp) {
    match m
    case CloseResults => s.main.WaitWorkers? && AllExited(s.workers)
    case MainReturn => s.main.WaitWriter? && s.writer.Finished?
  }

  ghost function MainStep(s: State, m: MainOp): State
    requires MainEnabled(s, m)
  {
    match m
    case CloseResults =>
      if s.resultsClosed > 0 then s.(panicked := true)
      else s.(main := WaitWriter, resultsClosed := s.resultsClosed + 1)
    case MainReturn => s.(main := Returned)
  }

  /** When the goroutine that performs a is able to. A send on a closed channel does not block: it panics. */
  ghost predicate Enabled(c: Config, s: State, a: Action) {
    && !s.panicked
    && match a
       case Feeder(f) => FeederEnabled(c, s, f)
       case Work(w, op) => WorkerEnabled(c, s, w, op)
       case Write(r) => WriterEnabled(c, s, r)
       case Main(m) => MainEnabled(s, m)
  }

  ghost function Step(c: Config, s: State, a: Action): State
    requires Enabled(c, s, a)
  {
    match a
    case Feeder(f) => FeederStep(c, s, f)
    case Work(w, op) => WorkerStep(c, s, w, op)
    case Write(r) => WriterStep(c, s, r)
    case Main(m) => MainStep(s, m)
  }

  /** A run from s to t performing the actions as in this order. */
  ghost predicate IsRun(c: Config, s: State, actions: seq<Action>, t: State)
    decreases |actions|
  {
    if actions == [] then s == t
    else Enabled(c, s, actions[0]) && IsRun(c, Step(c, s, actions[0]), actions[1..], t)
  }

  // ---------------------------------------------------------------- where the cards are

  /** The scannable rows from position i on. */
  function CardsFrom(rows: seq<Option<Card>>, i: nat): seq<Card>
    decreases |rows| - i
  {
    if i >= |rows| then [] else (if rows[i].Some? then [rows[i].value] else []) + CardsFrom(rows, i + 1)
  }

  function Cards(c: Config): seq<Card> { CardsFrom(c.rows, 0) }

  /** Whether worker w has card x in hand, an encrypted record being seen through decryption. */
  predicate Has(view: EncryptedRecord -> Option<Card>, w: Worker, x: Option<Card>) {
    match w
    case Idle => false
    case Holding(card) => Some(card) == x
    case PanDone(card, _) => Some(card) == x
    case Sending(rec) => view(rec) == x
    case Exited => false
  }

  ghost function Holders(view: EncryptedRecord -> Option<Card>, ws: seq<Worker>, x: Option<Card>): set<nat> {
    set i: nat | i < |ws| && Has(view, ws[i], x)
  }

  /** How often card x is in the system: still to be read, under way, stored, or given up. */
  ghost function Count(c: Config, view: EncryptedRecord -> Option<Card>, s: State, x: Option<Card>): nat {
    CardTally(CardsFrom(c.rows, s.fed), x) + CardTally(s.jobs, x)
    + |Holders(view, s.workers, x)|
    + Tally(view, s.results, x) + Tally(view, s.batch, x)
    + Tally(view, s.table, x) + Tally(view, s.rejected, x)
    + CardTally(s.dropped, x)
  }

  // ---------------------------------------------------------------- invariants

  /** Shutdown order: jobs closed, then workers out, then results closed, then the writer, then main. */
  ghost predicate Ordered(c: Config, s: State) {
    && !s.panicked
    && |s.workers| == c.workers && s.fed <= |c.rows|
    && |s.jobs| <= c.jobsCap && |s.results| <= c.resultsCap
    && s.jobsClosed == (if s.feederDone then 1 else 0)
    && (s.feederDone ==> s.fed == |c.rows|)
    && (forall i :: 0 <= i < |s.workers| && s.workers[i].Exited? ==> s.feederDone && s.jobs == [])
    && s.resultsClosed == (if s.main.WaitWorkers? then 0 else 1)
    && (!s.main.WaitWorkers? ==> AllExited(s.workers))
    && (s.writer.Finished? ==> s.resultsClosed == 1 && s.results == [] && s.batch == [])
    && (s.main.Returned? ==> s.writer.Finished?)
  }

  /** The counters count, and every INSERT but a final one carries exactly batchSize records. */
  ghost predicate Counted(c: Config, s: State) {
    && s.processed == |s.table|
    && s.errors == |s.dropped| + |s.rejected|
    && (if s.writer.Flushing? then |s.batch| == c.batchSize else |s.batch| < c.batchSize)
    && (forall i :: 0 <= i < |s.inserts| ==> 0 < |s.inserts[i]| <= c.batchSize)
    && (forall i :: 0 <= i < |s.inserts| - (if s.writer.Finished? then 1 else 0) ==>
          |s.inserts[i]| == c.batchSize)
  }

  /** What was received has been sent in INSERTs, in order, except for the batch. */
  ghost predicate SentInOrder(
      inserts: seq<seq<EncryptedRecord>>, batch: seq<EncryptedRecord>, received: seq<EncryptedRecord>)
  {
    Flatten(inserts) + batch == received
  }

  /** The rows of every INSERT are stored or rejected. */
  ghost predicate Answered(
      inserts: seq<seq<EncryptedRecord>>, table: seq<EncryptedRecord>, rejected: seq<EncryptedRecord>)
  {
    multiset(Flatten(inserts)) == multiset(table) + multiset(rejected)
  }

  ghost predicate Batched(s: State) {
    SentInOrder(s.inserts, s.batch, s.received) && Answered(s.inserts, s.table, s.rejected)
  }

  /** Nothing is lost, duplicated or corrupted: every scannable source row is in the system exactly once. */
  ghost predicate Conserved(c: Config, s: State) {
    && (forall i :: 0 <= i < |s.workers| ==> SealsItsCard(c.key, s.workers[i]))
    && (forall x :: Count(c, View(c.key), s, x) == CardTally(Cards(c), x))
  }

  /** A worker between its two Encrypt calls holds a PAN answer that opens to its card's PAN. */
  predicate SealsItsCard(k: Cipher, w: Worker) {
    w.PanDone? ==> OpenSealed(k, w.pan) == Some(w.card.cardNo)
  }

  ghost predicate Inv(c: Config, s: State) {
    Ordered(c, s) && Counted(c, s) && Batched(s) && Conserved(c, s)
  }
}
