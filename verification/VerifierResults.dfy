/**
  Which results travel through the verifier. R(card, v) is any relation that every result produced
  for a card satisfies; two uses of it follow: what v can be at all, and what v is when no Decrypt call
  fails or times out.
 */
module VerifierResults {
  import opened Records
  import opened Sequences
  import opened Verification
  import opened Verifier
  import opened VerifierEffects
  import opened VerifierSafety

  type Relation = (Card, VerificationRecord) -> bool

  /** R only relates a card to records about it, and covers what main and action a can produce. */
  ghost predicate AboutCards(R: Relation) {
    forall card, v :: R(card, v) ==> Origin(v) == card
  }

  ghost predicate Produces(c: Config, R: Relation, a: Action) {
    && (forall card: Card :: card.id !in c.stored ==> R(card, Failed(card, NotFound)))
    && match a
       case Outer(_, TimeOut) => (forall card: Card :: card.id in c.stored ==> R(card, Failed(card, TimedOut)))
       case Inner(_, p, q) =>
         (forall card: Card :: card.id in c.stored ==> R(card, VerifyRecord(c.key, card, c.stored[card.id], p, q)))
       case _ => true
  }

  ghost predicate Genuine(c: Config, R: Relation, v: VerificationRecord) {
    Origin(v) in c.originals && R(Origin(v), v)
  }

  ghost predicate AllGenuine(c: Config, R: Relation, vs: seq<VerificationRecord>) {
    forall i :: 0 <= i < |vs| ==> Genuine(c, R, vs[i])
  }

  ghost predicate GenuineState(c: Config, R: Relation, s: State)
    requires |s.outers| == |s.inners| == |c.originals|
  {
    && AllGenuine(c, R, s.chan) && AllGenuine(c, R, s.results)
    && (s.collector.Holding? ==> Genuine(c, R, s.collector.v))
    && (s.main.DrainHold? ==> Genuine(c, R, s.main.v))
    && (s.returned.Some? ==> AllGenuine(c, R, s.returned.value))
    && (forall i :: 0 <= i < |s.outers| && s.outers[i].Sending? ==> R(c.originals[i], s.outers[i].v))
    && (forall i :: 0 <= i < |s.inners| && s.inners[i].Reported? ==> R(c.originals[i], s.inners[i].v))
  }

  lemma GenuineStep(c: Config, R: Relation, s: State, a: Action)
    requires Ordered(c, s) && GenuineState(c, R, s) && Enabled(c, s, a)
    requires AboutCards(R) && Produces(c, R, a)
    ensures Ordered(c, Step(c, s, a)) ==> GenuineState(c, R, Step(c, s, a))
  {
    StepHasEffect(c, s, a);
    if Ordered(c, Step(c, s, a)) {
      EffectIsGenuine(c, R, s, a, Step(c, s, a));
    }
  }

  lemma EffectIsGenuine(c: Config, R: Relation, s: State, a: Action, t: State)
    requires Ordered(c, s) && Ordered(c, t) && GenuineState(c, R, s) && Enabled(c, s, a) && Effect(c, s, a, t)
    requires AboutCards(R) && Produces(c, R, a)
    ensures GenuineState(c, R, t)
  {
    match a
    case Cancel =>
    case Main(m) => MainGenuine(c, R, s, m, t);
    case Outer(i, o) => OuterGenuine(c, R, s, i, o, t);
    case Inner(i, p, q) => InnerGenuine(c, R, s, i, p, q, t);
    case Collect(k) => CollectorGenuine(c, R, s, k, t);
    case Close(z) =>
  }

  lemma InnerGenuine(c: Config, R: Relation, s: State, i: nat, p: bool, q: bool, t: State)
    requires Ordered(c, s) && Ordered(c, t) && GenuineState(c, R, s)
    requires InnerEnabled(c, s, i) && InnerEffect(c, s, i, p, q, t) && Produces(c, R, Inner(i, p, q))
    ensures GenuineState(c, R, t)
  {
  }

  lemma CollectorGenuine(c: Config, R: Relation, s: State, k: CollectorOp, t: State)
    requires Ordered(c, s) && Ordered(c, t) && GenuineState(c, R, s)
    requires CollectorEnabled(s, k) && CollectorEffect(c, s, k, t)
    ensures GenuineState(c, R, t)
  {
  }

  lemma MainGenuine(c: Config, R: Relation, s: State, m: MainOp, t: State)
    requires Ordered(c, s) && Ordered(c, t) && GenuineState(c, R, s)
    requires MainEnabled(c, s, m) && MainEffect(c, s, m, t)
    requires AboutCards(R) && Produces(c, R, Main(m))
    ensures GenuineState(c, R, t)
  {
    if m.SendMissing? {
      assert Genuine(c, R, Failed(c.originals[s.main.i], NotFound));
    }
  }

  lemma OuterGenuine(c: Config, R: Relation, s: State, i: nat, o: OuterOp, t: State)
    requires Ordered(c, s) && Ordered(c, t) && GenuineState(c, R, s)
    requires OuterEnabled(c, s, i, o) && OuterEffect(c, s, i, o, t)
    requires AboutCards(R) && Produces(c, R, Outer(i, o))
    ensures GenuineState(c, R, t)
  {
    if o.SendResult? {
      assert Genuine(c, R, s.outers[i].v);
    }
  }

  // ---------------------------------------------------------------- one result a record

  ghost function Owed(c: Config, outers: seq<Outer>, x: Card): set<nat> {
    set i: nat | i < |outers| && i < |c.originals| && OwesResult(outers[i]) && c.originals[i] == x
  }

  /** How often source row x is in the system: owed, under way, or collected. */
  ghost function Count(c: Config, view: VerificationRecord -> Card, s: State, x: Card): nat {
    |Owed(c, s.outers, x)| + Tally(view, s.chan, x)
    + (if s.collector.Holding? && view(s.collector.v) == x then 1 else 0)
    + (if s.main.DrainHold? && view(s.main.v) == x then 1 else 0)
    + Tally(view, s.results, x)
  }

  ghost predicate Conserved(c: Config, s: State)
    requires Position(c, s.main) <= |c.originals|
  {
    forall x :: CountIs(c, s, x)
  }

  lemma OwedUpdate(c: Config, outers: seq<Outer>, i: nat, v: Outer, x: Card)
    requires i < |outers| == |c.originals|
    ensures |Owed(c, outers[i := v], x)| + (if OwesResult(outers[i]) && c.originals[i] == x then 1 else 0)
            == |Owed(c, outers, x)| + (if OwesResult(v) && c.originals[i] == x then 1 else 0)
  {
    var before, after := Owed(c, outers, x), Owed(c, outers[i := v], x);
    assert before - {i} == after - {i};
    WithoutOne(before, i);
    WithoutOne(after, i);
  }

  lemma NextRecord(c: Config, i: nat, x: Card)
    requires i < |c.originals|
    ensures multiset(c.originals[..i + 1])[x] == multiset(c.originals[..i])[x] + if c.originals[i] == x then 1 else 0
  {
    assert c.originals[..i + 1] == c.originals[..i] + [c.originals[i]];
  }

  lemma ConservedStep(c: Config, R: Relation, s: State, a: Action)
    requires Inv(c, s) && GenuineState(c, R, s) && Conserved(c, s) && Enabled(c, s, a) && AboutCards(R)
    ensures Position(c, Step(c, s, a).main) <= |c.originals|
    ensures Conserved(c, Step(c, s, a))
  {
    StepKeeps(c, s, a);
    StepHasEffect(c, s, a);
    assert SendOwn(c, s.outers);
    EffectConserves(c, s, a, Step(c, s, a));
  }

  lemma EffectConserves(c: Config, s: State, a: Action, t: State)
    requires Inv(c, s) && Inv(c, t) && SendOwn(c, s.outers) && Conserved(c, s) && Enabled(c, s, a) && Effect(c, s, a, t)
    ensures Conserved(c, t)
  {
    forall x ensures CountIs(c, t, x) {
      assert CountIs(c, s, x);
      EffectCount(c, s, a, t, x);
    }
  }

  lemma EffectCount(c: Config, s: State, a: Action, t: State, x: Card)
    requires Ordered(c, s) && Ordered(c, t) && SendOwn(c, s.outers) && CountIs(c, s, x)
    requires Enabled(c, s, a) && Effect(c, s, a, t)
    ensures CountIs(c, t, x)
  {
    match a
    case Cancel =>
    case Main(m) => MainCount(c, s, m, t, x);
    case Outer(i, o) => OuterCount(c, ByOrigin(), s, i, o, t, x);
    case Inner(i, p, q) =>
    case Collect(k) => CollectorCount(c, ByOrigin(), s, k, t, x);
    case Close(z) =>
  }

  /** A goroutine about to send holds a result about its own record. */
  ghost predicate SendOwn(c: Config, outers: seq<Outer>) {
    forall i :: 0 <= i < |outers| && i < |c.originals| && outers[i].Sending? ==> Origin(outers[i].v) == c.originals[i]
  }

  ghost predicate CountIs(c: Config, s: State, x: Card)
    requires Position(c, s.main) <= |c.originals|
  {
    Count(c, ByOrigin(), s, x) == multiset(c.originals[..Position(c, s.main)])[x]
  }

  lemma MainCount(c: Config, s: State, m: MainOp, t: State, x: Card)
    requires Ordered(c, s) && Ordered(c, t) && CountIs(c, s, x) && MainEnabled(c, s, m) && MainEffect(c, s, m, t)
    ensures CountIs(c, t, x)
  {
    match m
    case SendMissing => MissingCount(c, s, t, x);
    case Spawn => SpawnCount(c, s, t, x);
    case DrainTake => DrainCount(c, s, m, t, x);
    case DrainAppend => DrainCount(c, s, m, t, x);
    case _ => QuietCount(c, s, m, t, x);
  }

  lemma MissingCount(c: Config, s: State, t: State, x: Card)
    requires |s.outers| == |c.originals| && s.main.Dispatch? && s.main.i < |c.originals| && CountIs(c, s, x)
    requires MissingSent(c, s, t) && t.collector == s.collector
    ensures CountIs(c, t, x)
  {
    NextRecord(c, s.main.i, x);
    TallyConcat(ByOrigin(), s.chan, [Failed(c.originals[s.main.i], NotFound)], x);
    TallyOne(ByOrigin(), Failed(c.originals[s.main.i], NotFound), x);
  }

  lemma SpawnCount(c: Config, s: State, t: State, x: Card)
    requires |s.outers| == |s.inners| == |c.originals| && s.main.Acquire? && s.main.i < |c.originals|
    requires CountIs(c, s, x) && Spawned(s, t) && t.collector == s.collector && s.outers[s.main.i].NotSpawned?
    ensures CountIs(c, t, x)
  {
    NextRecord(c, s.main.i, x);
    OwedUpdate(c, s.outers, s.main.i, Waiting, x);
  }

  lemma DrainCount(c: Config, s: State, m: MainOp, t: State, x: Card)
    requires Position(c, s.main) <= |c.originals| && CountIs(c, s, x) && (m.DrainTake? || m.DrainAppend?)
    requires MainEnabled(c, s, m) && MainEffect(c, s, m, t)
    ensures Position(c, t.main) <= |c.originals| && CountIs(c, t, x)
  {
    if m.DrainAppend? {
      TallyConcat(ByOrigin(), s.results, [s.main.v], x);
      TallyOne(ByOrigin(), s.main.v, x);
    }
  }

  /** The other steps move no result and pass no record. */
  lemma QuietCount(c: Config, s: State, m: MainOp, t: State, x: Card)
    requires Ordered(c, s) && Ordered(c, t) && CountIs(c, s, x) && MainEnabled(c, s, m) && MainEffect(c, s, m, t)
    requires !m.SendMissing? && !m.Spawn? && !m.DrainTake? && !m.DrainAppend?
    ensures CountIs(c, t, x)
  {
    assert Position(c, t.main) == Position(c, s.main);
  }

  lemma OuterCount(
      c: Config, view: VerificationRecord -> Card, s: State, i: nat, o: OuterOp, t: State, x: Card)
    requires |s.outers| == |c.originals| && OuterEnabled(c, s, i, o) && OuterEffect(c, s, i, o, t)
    requires o.SendResult? ==> view(s.outers[i].v) == c.originals[i]
    ensures Count(c, view, t, x) == Count(c, view, s, x)
  {
    OwedUpdate(c, s.outers, i, t.outers[i], x);
    if o.SendResult? {
      TallyConcat(view, s.chan, [s.outers[i].v], x);
      TallyOne(view, s.outers[i].v, x);
    }
  }

  lemma CollectorCount(
      c: Config, view: VerificationRecord -> Card, s: State, k: CollectorOp, t: State, x: Card)
    requires CollectorEnabled(s, k) && CollectorEffect(c, s, k, t)
    ensures Count(c, view, t, x) == Count(c, view, s, x)
  {
    if k.Append? {
      TallyConcat(view, s.results, [s.collector.v], x);
      TallyOne(view, s.collector.v, x);
    }
  }
}
