// The hypotheses of validity are needed: dropping either one, a run ends with a record of a value that is not the
// chain's.
module TaskHypotheses {
  import opened Basics
  import opened Decimal
  import opened Packing
  import opened HistoryStore
  import opened KeyOrder
  import opened TaskModel
  import opened TaskMachine
  import opened TaskValidity
  import opened TaskProvenance
  import opened TaskRefinement

  // ---------- growing a run ----------

  ghost predicate Bounded(states: seq<World>) { forall i :: 0 <= i < |states| ==> FaultBound(states[i]) }

  ghost predicate AllAgree(h: Hypothesis, events: seq<Event>) { forall i :: 0 <= i < |events| ==> Agrees(h, events[i]) }

  lemma Grow(h: Hypothesis, states: seq<World>, events: seq<Event>, e: Event)
    returns (longer: seq<World>, more: seq<Event>)
    requires Run(states, events)
    ensures Run(longer, more) && longer[|more|] == WorldStep(states[|events|], e)
    ensures Bounded(states) && FaultBound(WorldStep(states[|events|], e)) ==> Bounded(longer)
    ensures AllAgree(h, events) && Agrees(h, e) ==> AllAgree(h, more)
  {
    longer, more := states + [WorldStep(states[|events|], e)], events + [e];
    forall i {:trigger more[i]} | 0 <= i < |more| ensures longer[i + 1] == WorldStep(longer[i], more[i]) {
      assert i < |events| ==> more[i] == events[i];
    }
  }

  // One action of a goroutine that stands alone on its node.
  lemma GrowMove(h: Hypothesis, states: seq<World>, events: seq<Event>, w: World, tid: nat, s: Spot, a: Action,
                 next: Spot)
    returns (longer: seq<World>, more: seq<Event>)
    requires Run(states, events) && states[|events|] == Placed(w, ME, tid, s) && Move(w, ME, s, a) == next
    ensures Run(longer, more) && longer[|more|] == Placed(w, ME, tid, next)
    ensures Bounded(states) && FaultBound(Placed(w, ME, tid, next)) ==> Bounded(longer)
    ensures AllAgree(h, events) ==> AllAgree(h, more)
  {
    MoveIsStep(w, ME, tid, s, a);
    longer, more := Grow(h, states, events, Local(ME, Act(tid, a)));
  }

  // ---------- a small world ----------

  const ME: Key := "a"
  const FORGER: Key := "f"
  const TASK: TaskId := "t"

  function User(): Address { HexToAddress("") }

  // The slot holds 5 from block 1 on.
  function OneChain(): Chains { map[1 := Chain(1, [Write(User(), 0, 5, 1, 0)])] }

  function Claim(value: int): Params { Params(User(), 1, 1, 0, value) }

  lemma SlotHoldsFive(value: int)
    ensures StateAt(OneChain(), Claim(value)) == Some(5)
    ensures value != 5 ==> !HoldsOn(OneChain(), Claim(value))
  {
    assert ReplayAt([Write(User(), 0, 5, 1, 0)], User(), 0, 1) == Some(Write(User(), 0, 5, 1, 0));
  }

  // A node with nothing but a threshold.
  function Fresh(threshold: int): Node {
    Node(EmptyTracker(), map[], map[], map[], ConfirmLoop([], false), TimeoutLoop([], Next), 0, Some(threshold),
         {})
  }

  // A fresh node that reads its first epoch state.
  lemma Starts(h: Hypothesis, threshold: int) returns (states: seq<World>, events: seq<Event>)
    ensures Run(states, events) && Bounded(states) && AllAgree(h, events)
    ensures states[|events|] == Alone(Fresh(threshold), {})
  {
    var first := World(OneChain(), {}, map[ME := Fresh(threshold).(threshold := None)]);
    assert Initial(first) && Run([first], []);
    EpochRead(threshold);
    states, events := Grow(h, [first], [], Local(ME, ChangeEpoch(0, threshold)));
  }

  lemma EpochRead(threshold: int)
    ensures var n := Fresh(threshold).(threshold := None);
            WorldStep(Alone(n, {}), Local(ME, ChangeEpoch(0, threshold))) == Alone(Fresh(threshold), {})
  {
  }

  // A response that claims a value, as the wire carries it.
  function Claiming(value: int): Response { Response(TASK, [], 0, 1, "", Print(0), Print(value), 1) }

  function MessageOf(r: Response): Message { BroadcastMessage(r) }

  lemma ClaimingParams(value: int)
    ensures ParamsOf(Claiming(value)) == Some(Claim(value))
  {
    ParsePrint(0);
    ParsePrint(value);
  }

  function One(): Numeric { Numeric(Some(1), 0, true) }

  // ---------- a forged response that triggers the check ----------

  function ForgedSignature(): Signature { Signature(FORGER, Pack(Claim(7)), []) }

  function Forged(): Response { Claiming(7) }

  // What the check of the forged response finds.
  function Found(n: Node): Node { n.(tracker := Store(n.tracker, Forged(), FORGER, 1)) }

  function FoundBucket(n: Node): nat
    ensures FoundBucket(n) < |Found(n).tracker.buckets|
  {
    Found(n).tracker.current[TASK]
  }

  function Operators(n: Node): map<Key, string> {
    map k | k in Found(n).tracker.buckets[FoundBucket(n)].responses :: k
  }

  function ForgedEvidence(n: Node): Evidence {
    var b := Found(n).tracker.buckets[FoundBucket(n)];
    Evidence(b.responses, Operators(n), b.weights, if n.threshold.Some? then n.threshold.value else 0)
  }

  // The node is ready: nothing recorded, the forger not tracked, and enough weight once its response is.
  ghost predicate Ready(n: Node) {
    && n.epoch == 0 && n.records == map[] && 1 !in n.threads && !Tracked(n.tracker, TASK, FORGER)
    && n.threshold.Some? && Sum(ForgedEvidence(n).summed) >= n.threshold.value
    && Found(n).tracker.buckets[FoundBucket(n)].responses != map[]
  }

  function ForgerSpot(n: Node, th: Thread, signed: SignatureLog): Spot {
    Spot(n, Some(th), signed + {ForgedSignature()})
  }

  lemma ForgedReceipt(w: World, n: Node, signed: SignatureLog)
    requires Ready(n)
    ensures Move(w, ME, ForgerSpot(n, Received(Forged(), FORGER, One()), signed), CheckTracked)
         == ForgerSpot(n, Untracked(Forged(), FORGER, One()), signed)
    ensures Move(w, ME, ForgerSpot(n, Untracked(Forged(), FORGER, One()), signed), LookForRecord(false))
         == ForgerSpot(n, Unrecorded(Forged(), FORGER, One()), signed)
  {
  }

  lemma ForgedVerifies(w: World, n: Node, signed: SignatureLog)
    ensures Move(w, ME, ForgerSpot(n, Unrecorded(Forged(), FORGER, One()), signed), Verify)
         == ForgerSpot(n, Verified(Forged(), FORGER, 1), signed)
  {
    ClaimingParams(7);
    assert Verifies(signed + {ForgedSignature()}, Forged(), FORGER);
    assert NumericToBigInt(One()) == Ok(1);
  }

  lemma ForgedStored(w: World, n: Node, signed: SignatureLog)
    ensures Move(w, ME, ForgerSpot(n, Verified(Forged(), FORGER, 1), signed), StoreResponse)
         == ForgerSpot(Found(n), Checking(Forged(), true), signed)
  {
  }

  lemma ForgedTaken(w: World, n: Node, signed: SignatureLog)
    requires Ready(n)
    ensures Move(w, ME, ForgerSpot(Found(n), Checking(Forged(), true), signed), Snapshot)
         == ForgerSpot(Found(n), Holding(Forged(), true, FoundBucket(n)), signed)
  {
    var s := ForgerSpot(Found(n), Checking(Forged(), true), signed);
    SnapshotMove(w, ME, s, Forged(), true, FoundBucket(n));
  }

  lemma ForgedAdded(w: World, n: Node, signed: SignatureLog)
    ensures Move(w, ME, ForgerSpot(Found(n), Holding(Forged(), true, FoundBucket(n)), signed), AddUp)
         == ForgerSpot(Found(n), Summed(Forged(), true, FoundBucket(n), ForgedEvidence(n).summed), signed)
  {
    var s := ForgerSpot(Found(n), Holding(Forged(), true, FoundBucket(n)), signed);
    AddUpMove(w, ME, s, Forged(), true, FoundBucket(n), ForgedEvidence(n).summed);
  }

  lemma ForgedCompared(w: World, n: Node, signed: SignatureLog)
    requires Ready(n)
    ensures var e := ForgedEvidence(n);
            Move(w, ME, ForgerSpot(Found(n), Summed(Forged(), true, FoundBucket(n), e.summed), signed), Compare)
            == ForgerSpot(Found(n), Reached(Forged(), true, FoundBucket(n), e.summed, e.threshold), signed)
  {
    var e := ForgedEvidence(n);
    var s := ForgerSpot(Found(n), Summed(Forged(), true, FoundBucket(n), e.summed), signed);
    CompareMove(w, ME, s, Forged(), true, FoundBucket(n), e.summed, e.threshold);
  }

  lemma ForgedCollected(w: World, n: Node, signed: SignatureLog)
    ensures var e := ForgedEvidence(n);
            Move(w, ME, ForgerSpot(Found(n), Reached(Forged(), true, FoundBucket(n), e.summed, e.threshold), signed),
                 Collect(Operators(n)))
            == ForgerSpot(Found(n), Collected(Forged(), true, e), signed)
  {
    var e := ForgedEvidence(n);
    var s := ForgerSpot(Found(n), Reached(Forged(), true, FoundBucket(n), e.summed, e.threshold), signed);
    assert e.operators.Keys == e.responses.Keys;
    CollectMove(w, ME, s, Forged(), true, FoundBucket(n), e);
  }

  // The record of the forged claim.
  ghost function ForgedRecord(n: Node): (rec: Record)
    ensures RecordOf(Forged(), ForgedEvidence(n)) == Some(rec) && RecordParams(rec) == Claim(7)
  {
    ClaimingParams(7);
    RecordOf(Forged(), ForgedEvidence(n)).value
  }

  ghost function Recording(n: Node): Node { Found(n).(records := map[TASK := ForgedRecord(n)]) }

  lemma InsertMove(w: World, s: Spot, r: Response, e: Evidence, rec: Record)
    requires s.th == Some(Collected(r, true, e)) && s.n.records == map[] && RecordOf(r, e) == Some(rec)
    ensures Move(w, ME, s, InsertRecord(true))
         == s.(n := s.n.(records := map[r.taskId := rec]), th := Some(Recorded(r, true)))
  {
    assert Inserts(s.n.records, r, e, true);
    assert s.signed + {} == s.signed;
  }

  lemma ForgedRecorded(w: World, n: Node, signed: SignatureLog)
    requires Ready(n)
    ensures Move(w, ME, ForgerSpot(Found(n), Collected(Forged(), true, ForgedEvidence(n)), signed), InsertRecord(true))
         == ForgerSpot(Recording(n), Recorded(Forged(), true), signed)
  {
    var s := ForgerSpot(Found(n), Collected(Forged(), true, ForgedEvidence(n)), signed);
    InsertMove(w, s, Forged(), ForgedEvidence(n), ForgedRecord(n));
  }

  // ---------- the run of the forged response ----------

  ghost predicate Calm(n: Node) { forall tid :: tid in n.threads ==> !n.threads[tid].Summed? }

  // The forger's weight stays below the threshold.
  ghost predicate Small(n: Node) { Outweighed(ForgedEvidence(n).summed, {ME}, n.threshold) }

  function Alone(n: Node, signed: SignatureLog): World { World(OneChain(), signed, map[ME := n]) }

  lemma AloneBounded(n: Node, signed: SignatureLog)
    requires Calm(n)
    ensures FaultBound(Alone(n, signed))
  {
  }

  lemma PlacedBounded(w: World, tid: nat, s: Spot)
    requires w.nodes.Keys == {ME} && Calm(s.n)
    requires s.th.Some? && s.th.value.Summed? ==> Outweighed(s.th.value.summed, {ME}, s.n.threshold)
    ensures FaultBound(Placed(w, ME, tid, s))
  {
    assert Placed(w, ME, tid, s).nodes.Keys == {ME};
  }

  function Delivery(): Step { Deliver(1, MessageOf(Forged()), Some(Sender(true, FORGER, One()))) }

  lemma ForgedArrival(n: Node, signed: SignatureLog)
    requires Ready(n)
    ensures WorldStep(Alone(n, signed), Forge(ForgedSignature())) == Alone(n, signed + {ForgedSignature()})
    ensures WorldStep(Alone(n, signed + {ForgedSignature()}), Local(ME, Delivery()))
         == Placed(Alone(n, signed), ME, 1, ForgerSpot(n, Received(Forged(), FORGER, One()), signed))
  {
    LocalArrival(n, signed + {ForgedSignature()});
  }

  lemma LocalArrival(n: Node, signed: SignatureLog)
    requires Ready(n)
    ensures WorldStep(Alone(n, signed), Local(ME, Delivery()))
         == Alone(n.(threads := n.threads[1 := Received(Forged(), FORGER, One())]), signed)
  {
    assert signed + {} == signed;
    assert Arrive(Alone(n, signed), n, Delivery()) == n.(threads := n.threads[1 := Received(Forged(), FORGER, One())]);
  }

  lemma ClaimInRange(value: nat)
    requires value < 256
    ensures InRange(Claim(value))
  {
    PowMonotone(1, 32);
  }

  lemma ForgedAgrees(h: Hypothesis)
    requires h.stands(TASK, Claim(7))
    ensures Agrees(h, Local(ME, Delivery())) && Agrees(h, Forge(ForgedSignature()))
  {
    ClaimingParams(7);
    ClaimInRange(7);
  }

  // From the arrival of the response to its storage.
  lemma ForgedIn(h: Hypothesis, states: seq<World>, events: seq<Event>, n: Node, signed: SignatureLog)
    returns (longer: seq<World>, more: seq<Event>)
    requires Run(states, events) && states[|events|] == Alone(n, signed) && Ready(n)
    ensures Run(longer, more)
    ensures longer[|more|] == Placed(Alone(n, signed), ME, 1, ForgerSpot(Found(n), Checking(Forged(), true), signed))
    ensures Bounded(states) && Calm(n) ==> Bounded(longer)
    ensures AllAgree(h, events) && h.stands(TASK, Claim(7)) ==> AllAgree(h, more)
  {
    var w := Alone(n, signed);
    var received, untracked, unrecorded, verified, stored :=
      ForgerSpot(n, Received(Forged(), FORGER, One()), signed),
      ForgerSpot(n, Untracked(Forged(), FORGER, One()), signed),
      ForgerSpot(n, Unrecorded(Forged(), FORGER, One()), signed), ForgerSpot(n, Verified(Forged(), FORGER, 1), signed),
      ForgerSpot(Found(n), Checking(Forged(), true), signed);
    if Calm(n) {
      AloneBounded(n, signed + {ForgedSignature()});
      PlacedBounded(w, 1, received);
      PlacedBounded(w, 1, untracked);
      PlacedBounded(w, 1, unrecorded);
      PlacedBounded(w, 1, verified);
      PlacedBounded(w, 1, stored);
    }
    if h.stands(TASK, Claim(7)) {
      ForgedAgrees(h);
    }
    ForgedArrival(n, signed);
    ForgedReceipt(w, n, signed);
    ForgedVerifies(w, n, signed);
    ForgedStored(w, n, signed);
    longer, more := Grow(h, states, events, Forge(ForgedSignature()));
    longer, more := Grow(h, longer, more, Local(ME, Delivery()));
    longer, more := GrowMove(h, longer, more, w, 1, received, CheckTracked, untracked);
    longer, more := GrowMove(h, longer, more, w, 1, untracked, LookForRecord(false), unrecorded);
    longer, more := GrowMove(h, longer, more, w, 1, unrecorded, Verify, verified);
    longer, more := GrowMove(h, longer, more, w, 1, verified, StoreResponse, stored);
  }

  // On to the weights it finds ...
  lemma ForgedSummed(h: Hypothesis, states: seq<World>, events: seq<Event>, n: Node, signed: SignatureLog)
    returns (longer: seq<World>, more: seq<Event>)
    requires Run(states, events) && Ready(n)
    requires states[|events|] == Placed(Alone(n, signed), ME, 1, ForgerSpot(Found(n), Checking(Forged(), true), signed))
    ensures Run(longer, more)
    ensures longer[|more|] == Placed(Alone(n, signed), ME, 1,
              ForgerSpot(Found(n), Summed(Forged(), true, FoundBucket(n), ForgedEvidence(n).summed), signed))
    ensures Bounded(states) && Calm(n) && Small(n) ==> Bounded(longer)
    ensures AllAgree(h, events) ==> AllAgree(h, more)
  {
    var w, b, r := Alone(n, signed), FoundBucket(n), Forged();
    var checking, holding, summed := ForgerSpot(Found(n), Checking(r, true), signed),
      ForgerSpot(Found(n), Holding(r, true, b), signed),
      ForgerSpot(Found(n), Summed(r, true, b, ForgedEvidence(n).summed), signed);
    if Calm(n) && Small(n) {
      PlacedBounded(w, 1, holding);
      PlacedBounded(w, 1, summed);
    }
    ForgedTaken(w, n, signed);
    ForgedAdded(w, n, signed);
    longer, more := GrowMove(h, states, events, w, 1, checking, Snapshot, holding);
    longer, more := GrowMove(h, longer, more, w, 1, holding, AddUp, summed);
  }

  // ... over the threshold ...
  lemma ForgedReached(h: Hypothesis, states: seq<World>, events: seq<Event>, n: Node, signed: SignatureLog)
    returns (longer: seq<World>, more: seq<Event>)
    requires Run(states, events) && Ready(n)
    requires states[|events|] == Placed(Alone(n, signed), ME, 1,
               ForgerSpot(Found(n), Summed(Forged(), true, FoundBucket(n), ForgedEvidence(n).summed), signed))
    ensures Run(longer, more)
    ensures longer[|more|] == Placed(Alone(n, signed), ME, 1,
              ForgerSpot(Found(n), Collected(Forged(), true, ForgedEvidence(n)), signed))
    ensures Bounded(states) && Calm(n) ==> Bounded(longer)
    ensures AllAgree(h, events) ==> AllAgree(h, more)
  {
    var w, e, b, r := Alone(n, signed), ForgedEvidence(n), FoundBucket(n), Forged();
    var summed := ForgerSpot(Found(n), Summed(r, true, b, e.summed), signed);
    var reached := ForgerSpot(Found(n), Reached(r, true, b, e.summed, e.threshold), signed);
    var collected := ForgerSpot(Found(n), Collected(r, true, e), signed);
    if Calm(n) {
      PlacedBounded(w, 1, reached);
      PlacedBounded(w, 1, collected);
    }
    ForgedCompared(w, n, signed);
    ForgedCollected(w, n, signed);
    longer, more := GrowMove(h, states, events, w, 1, summed, Compare, reached);
    longer, more := GrowMove(h, longer, more, w, 1, reached, Collect(Operators(n)), collected);
  }

  // ... and to the record.
  lemma ForgedThrough(h: Hypothesis, states: seq<World>, events: seq<Event>, w: World, collected: Spot, recorded: Spot)
    returns (longer: seq<World>, more: seq<Event>)
    requires Run(states, events) && states[|events|] == Placed(w, ME, 1, collected)
    requires Move(w, ME, collected, InsertRecord(true)) == recorded && recorded.th.Some? && recorded.th.value.Recorded?
    requires w.nodes.Keys == {ME}
    ensures Run(longer, more) && longer[|more|] == Placed(w, ME, 1, recorded)
    ensures Bounded(states) && Calm(recorded.n) ==> Bounded(longer)
    ensures AllAgree(h, events) ==> AllAgree(h, more)
  {
    if Calm(recorded.n) {
      PlacedBounded(w, 1, recorded);
    }
    longer, more := GrowMove(h, states, events, w, 1, collected, InsertRecord(true), recorded);
  }

  lemma ForgedInserted(h: Hypothesis, states: seq<World>, events: seq<Event>, n: Node, signed: SignatureLog)
    returns (longer: seq<World>, more: seq<Event>)
    requires Run(states, events) && Ready(n)
    requires states[|events|] == Placed(Alone(n, signed), ME, 1,
               ForgerSpot(Found(n), Collected(Forged(), true, ForgedEvidence(n)), signed))
    ensures Run(longer, more)
    ensures longer[|more|]
         == Placed(Alone(n, signed), ME, 1, ForgerSpot(Recording(n), Recorded(Forged(), true), signed))
    ensures Bounded(states) && Calm(n) ==> Bounded(longer)
    ensures AllAgree(h, events) ==> AllAgree(h, more)
  {
    ForgedRecorded(Alone(n, signed), n, signed);
    longer, more := ForgedThrough(h, states, events, Alone(n, signed),
                                  ForgerSpot(Found(n), Collected(Forged(), true, ForgedEvidence(n)), signed),
                                  ForgerSpot(Recording(n), Recorded(Forged(), true), signed));
  }

  // A record of a value that the chain does not hold.
  ghost predicate EndsFalsely(states: seq<World>, events: seq<Event>)
    requires |states| == |events| + 1
  {
    var v := states[|events|];
    && ME in v.nodes && TASK in v.nodes[ME].records
    && !HoldsOn(v.chains, RecordParams(v.nodes[ME].records[TASK]))
  }

  lemma ForgedIsFalse(states: seq<World>, events: seq<Event>, n: Node, signed: SignatureLog)
    requires |states| == |events| + 1
    requires states[|events|]
         == Placed(Alone(n, signed), ME, 1, ForgerSpot(Recording(n), Recorded(Forged(), true), signed))
    ensures EndsFalsely(states, events)
  {
    SlotHoldsFive(7);
  }

  lemma ForgedRun(h: Hypothesis, states: seq<World>, events: seq<Event>, n: Node, signed: SignatureLog)
    returns (longer: seq<World>, more: seq<Event>)
    requires Run(states, events) && states[|events|] == Alone(n, signed) && Ready(n)
    ensures Run(longer, more) && EndsFalsely(longer, more)
    ensures Bounded(states) && Calm(n) && Small(n) ==> Bounded(longer)
    ensures AllAgree(h, events) && h.stands(TASK, Claim(7)) ==> AllAgree(h, more)
  {
    longer, more := ForgedIn(h, states, events, n, signed);
    longer, more := ForgedSummed(h, longer, more, n, signed);
    longer, more := ForgedReached(h, longer, more, n, signed);
    longer, more := ForgedInserted(h, longer, more, n, signed);
    ForgedIsFalse(longer, more, n, signed);
  }

  // ---------- without the fault bound ----------

  lemma FreshIsReady(threshold: int)
    requires threshold <= 1
    ensures Ready(Fresh(threshold))
  {
    var b := Found(Fresh(threshold)).tracker.buckets[FoundBucket(Fresh(threshold))];
    assert b.responses == map[FORGER := Forged()] && b.weights == map[FORGER := 1];
    SumRemove(b.weights, FORGER);
    assert b.weights - {FORGER} == map[];
  }

  // Messages agree throughout, but a key without a node holds the threshold: it alone writes a false record.
  lemma FaultBoundNeeded() returns (f: Meaning, states: seq<World>, events: seq<Event>)
    ensures Run(states, events) && AllAgree(Agreement(f), events) && EndsFalsely(states, events)
  {
    f := (t: TaskId) => Claim(7);
    states, events := Starts(Agreement(f), 1);
    FreshIsReady(1);
    states, events := ForgedRun(Agreement(f), states, events, Fresh(1), {});
  }

  // ---------- without agreement of traffic ----------

  // The node's own answer to the true claim, asked for under the same task id, with weight 10.
  function AskedRow(): TaskRow { TaskRow("", 1, 1, 0, 5, 0, Pending, 0, 0) }

  function AskedRequest(): Request { Request(TASK, "", 1, 1, Numeric(Some(0), 0, true), Numeric(Some(5), 0, true), 0) }

  function Ten(): Numeric { Numeric(Some(10), 0, true) }

  function Own(): Response { OwnResponse(AskedRequest(), 5, []) }

  function OwnSignature(): Signature { Signature(ME, Pack(Claim(5)), []) }

  function Asked(n: Node): Node { n.(tasks := map[TASK := AskedRow()]) }

  function OwnSpot(n: Node, th: Thread, signed: SignatureLog): Spot { Spot(n, Some(th), signed) }

  lemma OwnArrival(n: Node)
    requires n.threads == map[]
    ensures WorldStep(Alone(n, {}), Local(ME, Ask(0, TASK, AskedRow(), 1)))
         == Placed(Alone(n, {}), ME, 0, OwnSpot(n, Creating(TASK, AskedRow()), {}))
  {
    assert Exists(OneChain(), 1, 1) && PendingOrConfirming(AskedRow(), 1) == AskedRow();
    assert Arrive(Alone(n, {}), n, Ask(0, TASK, AskedRow(), 1)) == n.(threads := map[0 := Creating(TASK, AskedRow())]);
  }

  lemma OwnCreated(w: World, n: Node)
    requires n.tasks == map[]
    ensures Move(w, ME, OwnSpot(n, Creating(TASK, AskedRow()), {}), CreateRow(true, AskedRequest()))
         == OwnSpot(Asked(n), Requested(AskedRequest()), {})
  {
    assert ReadFrom(AskedRequest(), TASK, AskedRow());
  }

  lemma OwnStarted(w: World, n: Node)
    requires n.tracker == EmptyTracker()
    ensures Move(w, ME, OwnSpot(Asked(n), Requested(AskedRequest()), {}), Start)
         == OwnSpot(Asked(n), Processing(AskedRequest()), {})
  {
    StartMove(w, ME, OwnSpot(Asked(n), Requested(AskedRequest()), {}), AskedRequest());
  }

  lemma OwnSigned(w: World, n: Node)
    requires w.chains == OneChain()
    ensures Move(w, ME, OwnSpot(Asked(n), Processing(AskedRequest()), {}), Sign(Some(5), []))
         == OwnSpot(Asked(n), Signed(Own()), {OwnSignature()})
  {
    SlotHoldsFive(0);
    assert RequestParams(AskedRequest()) == Some(Claim(5));
    SignMove(w, ME, OwnSpot(Asked(n), Processing(AskedRequest()), {}), AskedRequest(), Some(5), []);
  }

  function Tracking(n: Node): Node { WithOwn(Asked(n), ME, Own(), 10) }

  lemma OwnStored(w: World, n: Node, signed: SignatureLog)
    ensures Move(w, ME, OwnSpot(Asked(n), Signed(Own()), signed), StoreOwn(Some(Ten())))
         == OwnSpot(Tracking(n), Stored(Own()), signed)
  {
    assert NumericToBigInt(Ten()) == Ok(10);
  }

  function Asking(): Event { Local(ME, Ask(0, TASK, AskedRow(), 1)) }

  lemma AskingAgrees(h: Hypothesis)
    requires h.stands(TASK, Claim(5))
    ensures Agrees(h, Asking())
  {
    ClaimInRange(5);
    assert RowParams(AskedRow()) == Claim(5);
  }

  // From the request to the goroutine that answers it.
  lemma OwnAsked(h: Hypothesis) returns (states: seq<World>, events: seq<Event>)
    ensures Run(states, events) && Bounded(states) && (h.stands(TASK, Claim(5)) ==> AllAgree(h, events))
    ensures states[|events|] == Placed(Alone(Fresh(11), {}), ME, 0,
                                       OwnSpot(Asked(Fresh(11)), Requested(AskedRequest()), {}))
  {
    var n, w := Fresh(11), Alone(Fresh(11), {});
    var creating := OwnSpot(n, Creating(TASK, AskedRow()), {});
    var requested := OwnSpot(Asked(n), Requested(AskedRequest()), {});
    if h.stands(TASK, Claim(5)) {
      AskingAgrees(h);
    }
    PlacedBounded(w, 0, creating);
    PlacedBounded(w, 0, requested);
    OwnArrival(n);
    OwnCreated(w, n);
    states, events := Starts(h, 11);
    states, events := Grow(h, states, events, Asking());
    states, events := GrowMove(h, states, events, w, 0, creating, CreateRow(true, AskedRequest()), requested);
  }

  lemma OwnRun(h: Hypothesis) returns (states: seq<World>, events: seq<Event>)
    ensures Run(states, events) && Bounded(states) && (h.stands(TASK, Claim(5)) ==> AllAgree(h, events))
    ensures states[|events|] == Placed(Alone(Fresh(11), {}), ME, 0,
                                       OwnSpot(Tracking(Fresh(11)), Stored(Own()), {OwnSignature()}))
  {
    var n, q := Fresh(11), AskedRequest();
    var w := Alone(n, {});
    var requested, processing, signed, stored :=
      OwnSpot(Asked(n), Requested(q), {}), OwnSpot(Asked(n), Processing(q), {}),
      OwnSpot(Asked(n), Signed(Own()), {OwnSignature()}), OwnSpot(Tracking(n), Stored(Own()), {OwnSignature()});
    PlacedBounded(w, 0, processing);
    PlacedBounded(w, 0, signed);
    PlacedBounded(w, 0, stored);
    OwnStarted(w, n);
    OwnSigned(w, n);
    OwnStored(w, n, {OwnSignature()});
    states, events := OwnAsked(h);
    states, events := GrowMove(h, states, events, w, 0, requested, Start, processing);
    states, events := GrowMove(h, states, events, w, 0, processing, Sign(Some(5), []), signed);
    states, events := GrowMove(h, states, events, w, 0, signed, StoreOwn(Some(Ten())), stored);
  }

  function Holder(): Node { Tracking(Fresh(11)).(threads := map[0 := Stored(Own())]) }

  lemma HolderStands()
    ensures Placed(Alone(Fresh(11), {}), ME, 0, OwnSpot(Tracking(Fresh(11)), Stored(Own()), {OwnSignature()}))
         == Alone(Holder(), {OwnSignature()})
  {
  }

  lemma HolderIsReady()
    ensures Ready(Holder()) && Calm(Holder()) && Small(Holder())
  {
    var weights := ForgedEvidence(Holder()).summed;
    HolderWeights();
    SumRemove(weights, ME);
    SumRemove(weights - {ME}, FORGER);
    assert weights - {ME} - {FORGER} == map[];
    assert Outside(weights, {ME}) == map[FORGER := 1];
    SumRemove(map[FORGER := 1], FORGER);
    assert map[FORGER := 1] - {FORGER} == map[];
  }

  lemma HolderWeights()
    ensures ForgedEvidence(Holder()).summed == map[ME := 10, FORGER := 1]
    ensures Found(Holder()).tracker.buckets[FoundBucket(Holder())].responses == map[ME := Own(), FORGER := Forged()]
    ensures !Tracked(Holder().tracker, TASK, FORGER)
  {
    assert Tracking(Fresh(11)).tracker.buckets[0] == Bucket(TASK, map[ME := Own()], map[ME := 10]);
  }

  // The bound holds and everything is in range throughout, but a message under the id of another claim borrows the
  // weight behind that claim.
  lemma AgreementNeeded() returns (states: seq<World>, events: seq<Event>)
    ensures Run(states, events) && Bounded(states) && AllAgree(InWidth(), events) && EndsFalsely(states, events)
  {
    var h := InWidth();
    states, events := OwnRun(h);
    HolderIsReady();
    HolderStands();
    states, events := ForgedRun(h, states, events, Holder(), {OwnSignature()});
  }
}
