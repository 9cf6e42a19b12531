/** The batch endpoint after its pool: replies restored to item order by index, encoded, and compacted. */
module BatchHandler {
  import opened Basics
  import opened Aead
  import opened Base64
  import opened Sequences
  import opened BatchPool

  const MAX_ITEMS := 1000

  datatype EncryptResponse = EncryptResponse(ciphertext: string, nonce: string)

  datatype Response =
    | Rejected(status: nat, message: string)
    | Processed(results: seq<EncryptResponse>, errors: seq<string>)

  /** The response entry of one answered item: both parts in base64. */
  function Encoded(sealed: Sealed): EncryptResponse {
    EncryptResponse(Encode(sealed.ciphertext), Encode(sealed.nonce))
  }

  /** An item whose answer reaches the response. */
  predicate Delivered(o: Outcome) {
    o.Answer? && o.sealed.ciphertext != []
  }

  /** The entries of the delivered items, in item order. */
  function Entries(outcomes: seq<Outcome>): seq<EncryptResponse> {
    if outcomes == [] then []
    else
      var last := outcomes[|outcomes| - 1];
      Entries(outcomes[..|outcomes| - 1]) + if Delivered(last) then [Encoded(last.sealed)] else []
  }

  /** The messages of the failed items, in order. */
  function Messages(outcomes: seq<Outcome>): seq<string> {
    if outcomes == [] then []
    else
      var last := outcomes[|outcomes| - 1];
      Messages(outcomes[..|outcomes| - 1]) + if last.Failure? then [last.message] else []
  }

  function OutcomeOf(): Reply -> Outcome {
    (r: Reply) => r.outcome
  }

  lemma EncodeIsEmpty(b: Bytes)
    ensures Encode(b) == "" <==> b == []
  {
    EncodeLength(b);
  }

  // ---------------------------------------------------------------- reordered outcomes

  /** Over the items below n with outcome x, the number of replies that name them. */
  ghost function Named(outcomes: seq<Outcome>, replies: seq<Reply>, x: Outcome, n: nat): nat
    requires n <= |outcomes|
  {
    if n == 0 then 0
    else
      var i: nat := n - 1;
      Named(outcomes, replies, x, i) + if outcomes[i] == x then Tally(ByIndex(), replies, i) else 0
  }

  lemma {:induction false} NamedByOneMore(outcomes: seq<Outcome>, replies: seq<Reply>, x: Outcome, n: nat)
    requires n <= |outcomes| && replies != []
    ensures Named(outcomes, replies, x, n) ==
            Named(outcomes, replies[1..], x, n)
            + if replies[0].index < n && outcomes[replies[0].index] == x then 1 else 0
  {
    if n > 0 {
      NamedByOneMore(outcomes, replies, x, n - 1);
    }
  }

  lemma {:induction false} NamedByNone(outcomes: seq<Outcome>, x: Outcome, n: nat)
    requires n <= |outcomes|
    ensures Named(outcomes, [], x, n) == 0
  {
    if n > 0 {
      NamedByNone(outcomes, x, n - 1);
    }
  }

  lemma {:induction false} RepliesWithOutcome(outcomes: seq<Outcome>, replies: seq<Reply>, x: Outcome)
    requires forall k :: 0 <= k < |replies| ==>
               replies[k].index < |outcomes| && replies[k].outcome == outcomes[replies[k].index]
    ensures Tally(OutcomeOf(), replies, x) == Named(outcomes, replies, x, |outcomes|)
  {
    if replies == [] {
      NamedByNone(outcomes, x, |outcomes|);
    } else {
      RepliesWithOutcome(outcomes, replies[1..], x);
      NamedByOneMore(outcomes, replies, x, |outcomes|);
      assert replies[0].outcome == outcomes[replies[0].index];
    }
  }

  lemma {:induction false} NamedOnce(outcomes: seq<Outcome>, replies: seq<Reply>, x: Outcome, n: nat)
    requires n <= |outcomes|
    requires forall i: nat :: i < |outcomes| ==> Tally(ByIndex(), replies, i) == 1
    ensures Named(outcomes, replies, x, n) == multiset(outcomes[..n])[x]
  {
    if n == 0 {
      assert outcomes[..0] == [];
    } else {
      var i: nat := n - 1;
      NamedOnce(outcomes, replies, x, i);
      assert Tally(ByIndex(), replies, i) == 1;
      assert outcomes[..n] == outcomes[..i] + [outcomes[i]];
    }
  }

  /** The outcomes the replies carry are those of the items, in another order. */
  lemma ReorderingPermutes(outcomes: seq<Outcome>, replies: seq<Reply>)
    requires IsReordering(outcomes, replies)
    ensures multiset(Map(OutcomeOf(), replies)) == multiset(outcomes)
  {
    forall x: Outcome ensures multiset(Map(OutcomeOf(), replies))[x] == multiset(outcomes)[x] {
      TallyIsMultiplicity(OutcomeOf(), replies, x);
      RepliesWithOutcome(outcomes, replies, x);
      NamedOnce(outcomes, replies, x, |outcomes|);
      assert outcomes[..|outcomes|] == outcomes;
    }
  }

  lemma {:induction false} MessageCount(outcomes: seq<Outcome>, m: string)
    ensures multiset(Messages(outcomes))[m] == multiset(outcomes)[Failure(m)]
  {
    if outcomes != [] {
      var last := |outcomes| - 1;
      MessageCount(outcomes[..last], m);
      assert outcomes == outcomes[..last] + [outcomes[last]];
      assert multiset(outcomes)[Failure(m)] ==
             multiset(outcomes[..last])[Failure(m)] + if outcomes[last] == Failure(m) then 1 else 0;
    }
  }

  lemma SameMessages(a: seq<Outcome>, b: seq<Outcome>)
    requires multiset(a) == multiset(b)
    ensures multiset(Messages(a)) == multiset(Messages(b))
  {
    forall m: string ensures multiset(Messages(a))[m] == multiset(Messages(b))[m] {
      MessageCount(a, m);
      MessageCount(b, m);
    }
  }

  lemma {:induction false} EveryItemNamed(replies: seq<Reply>, i: nat)
    requires Tally(ByIndex(), replies, i) > 0
    ensures exists k :: 0 <= k < |replies| && replies[k].index == i
  {
    if replies[0].index != i {
      EveryItemNamed(replies[1..], i);
      var k :| 0 <= k < |replies[1..]| && replies[1..][k].index == i;
      assert replies[k + 1].index == i;
    }
  }

  // ---------------------------------------------------------------- the handler

  lemma MessagesArePermuted(outcomes: seq<Outcome>, replies: seq<Reply>)
    requires IsReordering(outcomes, replies)
    ensures multiset(Messages(Map(OutcomeOf(), replies))) == multiset(Messages(outcomes))
  {
    ReorderingPermutes(outcomes, replies);
    SameMessages(Map(OutcomeOf(), replies), outcomes);
  }

  lemma OneMoreReply(replies: seq<Reply>, k: nat)
    requires k < |replies|
    ensures var o := replies[k].outcome;
            Messages(Map(OutcomeOf(), replies[..k + 1])) ==
            Messages(Map(OutcomeOf(), replies[..k])) + if o.Failure? then [o.message] else []
  {
    var before := Map(OutcomeOf(), replies[..k]);
    MapAppend(OutcomeOf(), replies[..k], replies[k]);
    assert replies[..k + 1] == replies[..k] + [replies[k]];
    assert (before + [replies[k].outcome])[..|before|] == before;
  }

  predicate Shows(slot: Option<Sealed>, o: Outcome) {
    slot == if o.Answer? then Some(o.sealed) else None
  }

  /** The collecting loop: answers go to their item's slot, messages are kept in order of arrival. */
  method Restore(
      slots: array<Option<Sealed>>, replies: seq<Reply>, ghost outcomes: seq<Outcome>) returns (errors: seq<string>)
    requires slots.Length == |outcomes| && IsReordering(outcomes, replies)
    requires forall i :: 0 <= i < slots.Length ==> slots[i].None?
    modifies slots
    ensures forall i :: 0 <= i < slots.Length ==> Shows(slots[i], outcomes[i])
    ensures multiset(errors) == multiset(Messages(outcomes))
  {
    errors := [];
    for k := 0 to |replies|
      invariant errors == Messages(Map(OutcomeOf(), replies[..k]))
      invariant forall i :: 0 <= i < slots.Length ==> slots[i].None? || Shows(slots[i], outcomes[i])
      invariant forall j :: 0 <= j < k ==> Shows(slots[replies[j].index], replies[j].outcome)
    {
      var reply := replies[k];
      OneMoreReply(replies, k);
      match reply.outcome {
        case Failure(message) => errors := errors + [message];
        case Answer(sealed) => slots[reply.index] := Some(sealed);
      }
    }
    assert replies[..|replies|] == replies;
    MessagesArePermuted(outcomes, replies);
    forall i: nat | i < slots.Length ensures Shows(slots[i], outcomes[i]) {
      EveryItemNamed(replies, i);
    }
  }

  /** The conversion and the compaction loops. */
  method Compact(slots: array<Option<Sealed>>, ghost outcomes: seq<Outcome>) returns (results: seq<EncryptResponse>)
    requires slots.Length == |outcomes|
    requires forall i :: 0 <= i < slots.Length ==> Shows(slots[i], outcomes[i])
    ensures results == Entries(outcomes)
  {
    var converted := Convert(slots);
    forall j | 0 <= j < |outcomes| ensures IsEntry(converted[j], outcomes[j]) {
      ConvertedIsEntry(slots[j], outcomes[j]);
    }
    results := Filter(converted, outcomes);
  }

  /** A converted slot: the encoded answer, or the zero entry. */
  function Converted(slot: Option<Sealed>): EncryptResponse {
    if slot.Some? then Encoded(slot.value) else EncryptResponse("", "")
  }

  method Convert(slots: array<Option<Sealed>>) returns (converted: array<EncryptResponse>)
    ensures fresh(converted) && converted.Length == slots.Length
    ensures forall j :: 0 <= j < slots.Length ==> converted[j] == Converted(slots[j])
  {
    converted := new EncryptResponse[slots.Length](_ => EncryptResponse("", ""));
    for i := 0 to slots.Length
      invariant forall j :: 0 <= j < slots.Length ==>
                  converted[j] == if j < i then Converted(slots[j]) else EncryptResponse("", "")
    {
      if slots[i].Some? {
        converted[i] := Encoded(slots[i].value);
      }
    }
  }

  lemma ConvertedIsEntry(slot: Option<Sealed>, o: Outcome)
    requires Shows(slot, o)
    ensures IsEntry(Converted(slot), o)
  {
    if slot.Some? {
      EncodeIsEmpty(slot.value.ciphertext);
    }
  }

  /** An entry has a ciphertext just when its item is delivered, and is then that item's. */
  predicate IsEntry(e: EncryptResponse, o: Outcome) {
    (e.ciphertext != "" <==> Delivered(o)) && (Delivered(o) ==> e == Encoded(o.sealed))
  }

  method Filter(converted: array<EncryptResponse>, ghost outcomes: seq<Outcome>) returns (results: seq<EncryptResponse>)
    requires converted.Length == |outcomes|
    requires forall i :: 0 <= i < converted.Length ==> IsEntry(converted[i], outcomes[i])
    ensures results == Entries(outcomes)
  {
    results := [];
    for i := 0 to converted.Length
      invariant results == Entries(outcomes[..i])
    {
      assert outcomes[..i + 1][..i] == outcomes[..i];
      assert IsEntry(converted[i], outcomes[i]);
      if converted[i].ciphertext != "" {
        results := results + [converted[i]];
      }
    }
    assert outcomes[..|outcomes|] == outcomes;
  }

  /**
    The endpoint for a request of `count` items. replies is what its pool collected, in the order of
    arrival; the answer depends on it only through the order of the messages.
   */
  method BatchEncrypt(count: nat, replies: seq<Reply>, ghost outcomes: seq<Outcome>) returns (r: Response)
    requires 1 <= count <= MAX_ITEMS ==> |outcomes| == count && IsReordering(outcomes, replies)
    ensures count == 0 ==> r == Rejected(400, "items array is required")
    ensures count > MAX_ITEMS ==> r == Rejected(400, "batch size cannot exceed 1000 items")
    ensures r.Processed? <==> 1 <= count <= MAX_ITEMS
    ensures r.Processed? ==> r.results == Entries(outcomes)
    ensures r.Processed? ==> multiset(r.errors) == multiset(Messages(outcomes))
    ensures count > 1000 ==> r.Rejected?
    ensures 1 <= count <= 1000 ==>
              r.Processed?
              && |r.results| == |set i: nat | i < count && outcomes[i].Answer? && outcomes[i].sealed.ciphertext != []|
    ensures r.Processed? ==>
              forall i: nat :: i < count && outcomes[i].Answer? && outcomes[i].sealed.ciphertext != [] ==>
                var k := |set j: nat | j < i && outcomes[j].Answer? && outcomes[j].sealed.ciphertext != []|;
                && k < |r.results|
                && r.results[k].ciphertext == Encode(outcomes[i].sealed.ciphertext)
                && r.results[k].nonce == Encode(outcomes[i].sealed.nonce)
    ensures r.Processed? ==>
              forall m: string :: multiset(r.errors)[m] == |set i: nat | i < count && outcomes[i] == Failure(m)|
  {
    if count == 0 {
      return Rejected(400, "items array is required");
    }
    if count > MAX_ITEMS {
      return Rejected(400, "batch size cannot exceed 1000 items");
    }
    var slots := new Option<Sealed>[count](_ => None);
    var errors := Restore(slots, replies, outcomes);
    var results := Compact(slots, outcomes);
    EntriesInOrder(outcomes);
    MessagesCounted(outcomes);
    return Processed(results, errors);
  }

  // ---------------------------------------------------------------- the entries, item by item

  /** The delivered items among the first n. */
  ghost function DeliveredBefore(outcomes: seq<Outcome>, n: nat): set<nat>
    requires n <= |outcomes|
  {
    set j: nat | j < n && outcomes[j].Answer? && outcomes[j].sealed.ciphertext != []
  }

  lemma OneMoreDelivered(outcomes: seq<Outcome>, n: nat)
    requires n < |outcomes|
    ensures DeliveredBefore(outcomes, n + 1) ==
            DeliveredBefore(outcomes, n) + if Delivered(outcomes[n]) then {n} else {}
    ensures |DeliveredBefore(outcomes, n + 1)| ==
            |DeliveredBefore(outcomes, n)| + if Delivered(outcomes[n]) then 1 else 0
  {
    assert n !in DeliveredBefore(outcomes, n);
  }

  lemma {:induction false} EntriesCounted(outcomes: seq<Outcome>, n: nat)
    requires n <= |outcomes|
    ensures |Entries(outcomes[..n])| == |DeliveredBefore(outcomes, n)|
  {
    if n == 0 {
      assert DeliveredBefore(outcomes, 0) == {};
    } else {
      EntriesCounted(outcomes, n - 1);
      OneMoreDelivered(outcomes, n - 1);
      assert outcomes[..n][..n - 1] == outcomes[..n - 1];
    }
  }

  /** Item i's entry comes after those of the delivered items before it. */
  lemma {:induction false} EntryAt(outcomes: seq<Outcome>, n: nat, i: nat)
    requires i < n <= |outcomes| && Delivered(outcomes[i])
    ensures var k := |DeliveredBefore(outcomes, i)|;
            k < |Entries(outcomes[..n])| && Entries(outcomes[..n])[k] == Encoded(outcomes[i].sealed)
  {
    assert outcomes[..n][..n - 1] == outcomes[..n - 1];
    if i == n - 1 {
      EntriesCounted(outcomes, i);
    } else {
      EntryAt(outcomes, n - 1, i);
    }
  }

  lemma EntriesInOrder(outcomes: seq<Outcome>)
    ensures |Entries(outcomes)| ==
            |set i: nat | i < |outcomes| && outcomes[i].Answer? && outcomes[i].sealed.ciphertext != []|
    ensures forall i: nat :: i < |outcomes| && outcomes[i].Answer? && outcomes[i].sealed.ciphertext != [] ==>
              var k := |set j: nat | j < i && outcomes[j].Answer? && outcomes[j].sealed.ciphertext != []|;
              && k < |Entries(outcomes)|
              && Entries(outcomes)[k].ciphertext == Encode(outcomes[i].sealed.ciphertext)
              && Entries(outcomes)[k].nonce == Encode(outcomes[i].sealed.nonce)
  {
    assert outcomes[..|outcomes|] == outcomes;
    EntriesCounted(outcomes, |outcomes|);
    forall i: nat | i < |outcomes| && outcomes[i].Answer? && outcomes[i].sealed.ciphertext != []
      ensures var k := |set j: nat | j < i && outcomes[j].Answer? && outcomes[j].sealed.ciphertext != []|;
              k < |Entries(outcomes)| && Entries(outcomes)[k] == Encoded(outcomes[i].sealed)
    {
      EntryAt(outcomes, |outcomes|, i);
      assert DeliveredBefore(outcomes, i) ==
             set j: nat | j < i && outcomes[j].Answer? && outcomes[j].sealed.ciphertext != [];
    }
  }

  lemma MessagesCounted(outcomes: seq<Outcome>)
    ensures forall m: string ::
              multiset(Messages(outcomes))[m] == |set i: nat | i < |outcomes| && outcomes[i] == Failure(m)|
  {
    forall m: string
      ensures multiset(Messages(outcomes))[m] == |set i: nat | i < |outcomes| && outcomes[i] == Failure(m)|
    {
      MessageTimes(outcomes, m);
      assert Places(outcomes, Failure(m)) == set i: nat | i < |outcomes| && outcomes[i] == Failure(m);
    }
  }

  lemma MessageTimes(outcomes: seq<Outcome>, m: string)
    ensures multiset(Messages(outcomes))[m] == |Places(outcomes, Failure(m))|
  {
    MessageCount(outcomes, m);
    Multiplicity(outcomes, Failure(m));
  }

  // ---------------------------------------------------------------- what the response accounts for

  /** Results and errors together account for every item exactly when no answer has an empty ciphertext. */
  lemma {:induction false} EveryItemAccountedFor(outcomes: seq<Outcome>)
    ensures |Entries(outcomes)| + |Messages(outcomes)| <= |outcomes|
    ensures |Entries(outcomes)| + |Messages(outcomes)| == |outcomes| <==>
            forall i :: 0 <= i < |outcomes| ==> outcomes[i].Failure? || Delivered(outcomes[i])
  {
    if outcomes != [] {
      var last := |outcomes| - 1;
      EveryItemAccountedFor(outcomes[..last]);
      assert forall i :: 0 <= i < last ==> outcomes[..last][i] == outcomes[i];
    }
  }

  /** An answer made by a lawful cipher is never empty, so nothing is lost when all answers are. */
  lemma SealedAnswersAreDelivered(k: Cipher, n: Nonce, plaintext: Bytes)
    requires k.Lawful()
    ensures Delivered(Answer(Sealed(k.seal(n, plaintext), n)))
  {
    assert |k.seal(n, plaintext)| == |plaintext| + TAG_SIZE;
  }
}
