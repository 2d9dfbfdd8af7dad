// Validity of consensus: what is recorded is what the chain says, on every node, forever.
module TaskValidity {
  import opened Basics
  import opened Packing
  import opened HistoryStore
  import opened KeyOrder
  import opened TaskModel
  import opened TaskMachine
  import opened TaskSafety
  import opened TaskProvenance

  // ---------- hypotheses ----------

  // What is assumed along a run: the tuples that traffic may use a task id for, and whether keys without a node are
  // outweighed. Receivers do not recompute task ids, so both are assumptions.
  datatype Hypothesis = Hypothesis(stands: (TaskId, Params) -> bool, bounded: bool)

  // Which tuple a task id stands for.
  type Meaning = TaskId -> Params

  // Messages and requests with one task id agree on chain, target, block, key and value, and the rest is outweighed.
  function Agreement(f: Meaning): Hypothesis { Hypothesis((task, p) => p == f(task), true) }

  // Messages and requests keep to the widths of the contract, and no more.
  function InWidth(): Hypothesis { Hypothesis((task, p) => true, false) }

  predicate Known(h: Hypothesis, task: TaskId, p: Params) { h.stands(task, p) && InRange(p) }

  // What messages and requests claim is allowed under their task ids, and in range.
  predicate Agrees(h: Hypothesis, e: Event) {
    match e
    case Local(_, Deliver(_, m, _)) =>
      var r := ConvertProtoToResponse(m);
      ParamsOf(r).Some? ==> Known(h, r.taskId, ParamsOf(r).value)
    case Local(_, Ask(_, task, row, _)) => Known(h, task, RowParams(row))
    case _ => true
  }

  // The part of the weights that keys without a node hold does not reach the threshold.
  ghost predicate Outweighed(summed: map<Key, int>, nodes: set<Key>, threshold: Option<int>) {
    threshold.Some? ==> Sum(Outside(summed, nodes)) < threshold.value
  }

  // Keys without a node never hold weight, as added up, that reaches the threshold in force.
  ghost predicate FaultBound(w: World) {
    forall k, tid :: k in w.nodes && tid in w.nodes[k].threads && w.nodes[k].threads[tid].Summed? ==>
      Outweighed(w.nodes[k].threads[tid].summed, w.nodes.Keys, w.nodes[k].threshold)
  }

  // The hypotheses hold all along a run.
  ghost predicate Assumed(h: Hypothesis, states: seq<World>, events: seq<Event>) {
    Run(states, events)
    && forall i {:trigger events[i]} :: 0 <= i < |events| ==>
         (h.bounded ==> FaultBound(states[i])) && Agrees(h, events[i])
  }

  // ---------- invariant ----------

  predicate KnownResponse(h: Hypothesis, r: Response) { ParamsOf(r).Some? && Known(h, r.taskId, ParamsOf(r).value) }

  predicate KnownRequest(h: Hypothesis, q: Request) {
    q.key.valid && RequestParams(q).Some? && Known(h, q.taskId, RequestParams(q).value)
  }

  predicate KnownRow(h: Hypothesis, task: TaskId, row: TaskRow) { Known(h, task, RowParams(row)) }

  predicate KnownRows(h: Hypothesis, tasks: map<TaskId, TaskRow>) {
    forall t :: t in tasks ==> KnownRow(h, t, tasks[t])
  }

  predicate KnownList(h: Hypothesis, todo: seq<(TaskId, TaskRow)>) {
    forall i :: 0 <= i < |todo| ==> KnownRow(h, todo[i].0, todo[i].1)
  }

  predicate KnownResponses(h: Hypothesis, responses: map<Key, Response>) {
    forall k :: k in responses ==> KnownResponse(h, responses[k])
  }

  // Some key with a node is among the summed weights.
  predicate SomeNode(summed: map<Key, int>, nodes: set<Key>) { exists k :: k in summed && k in nodes }

  // The summed weights that reach a threshold include a node's, if the others are outweighed.
  predicate Backed(h: Hypothesis, nodes: set<Key>, summed: map<Key, int>) { h.bounded ==> SomeNode(summed, nodes) }

  predicate EvidenceKnown(h: Hypothesis, nodes: set<Key>, e: Evidence) {
    KnownResponses(h, e.responses) && Backed(h, nodes, e.summed)
  }

  predicate ThreadKnown(h: Hypothesis, nodes: set<Key>, th: Thread) {
    match th
    case Received(r, _, _) => ParamsOf(r).Some? ==> KnownResponse(h, r)
    case Untracked(r, _, _) => ParamsOf(r).Some? ==> KnownResponse(h, r)
    case Unrecorded(r, _, _) => ParamsOf(r).Some? ==> KnownResponse(h, r)
    case Reached(r, _, _, summed, _) => KnownResponse(h, r) && Backed(h, nodes, summed)
    case Collected(r, _, e) => KnownResponse(h, r) && EvidenceKnown(h, nodes, e)
    case Requested(q) => KnownRequest(h, q)
    case Processing(q) => KnownRequest(h, q)
    case Creating(task, row) => KnownRow(h, task, row)
    case _ => KnownResponse(h, th.r)
  }

  predicate RecordKnown(h: Hypothesis, nodes: set<Key>, task: TaskId, rec: Record) {
    Known(h, task, RecordParams(rec)) && EvidenceKnown(h, nodes, rec.evidence)
  }

  predicate NodeKnown(h: Hypothesis, nodes: set<Key>, n: Node) {
    && (forall a :: 0 <= a < |n.tracker.buckets| ==> KnownResponses(h, n.tracker.buckets[a].responses))
    && KnownRows(h, n.tasks)
    && (forall t :: t in n.records ==> RecordKnown(h, nodes, t, n.records[t]))
    && KnownList(h, n.confirms.todo) && KnownList(h, n.timeouts.todo)
    && (forall tid :: tid in n.threads ==> ThreadKnown(h, nodes, n.threads[tid]))
  }

  // A node only signs what its chain answers.
  ghost predicate TrueSignature(chains: Chains, s: Signature) {
    exists p :: InRange(p) && s.message == Pack(p) && StateAt(chains, p) == Some(p.value as nat)
  }

  ghost predicate LogTrue(w: World) {
    forall s :: s in w.signed && s.key in w.nodes ==> TrueSignature(w.chains, s)
  }

  predicate ChainsInv(chains: Chains) {
    forall c :: c in chains ==> forall i :: 0 <= i < |chains[c].log| ==> chains[c].log[i].block <= chains[c].head
  }

  // ---------- goroutine actions ----------

  lemma OwnResponseKnown(h: Hypothesis, w: World, q: Request, fetched: Option<nat>, bytes: Bytes, me: Key)
    requires KnownRequest(h, q) && Answers(w.chains, q, fetched) && Signs(q, fetched)
    ensures KnownResponse(h, OwnResponse(q, fetched.value, bytes))
    ensures forall s :: s in SignatureOf(w, me, Processing(q), Sign(fetched, bytes)) ==> TrueSignature(w.chains, s)
  {
    var p := RequestParams(q).value;
    var s := Signature(me, Pack(p), bytes);
    OwnResponseVerifies({s}, q, fetched.value, me, bytes);
    assert StateAt(w.chains, p) == fetched;
  }

  lemma CompareFindsNode(w: World, n: Node, th: Thread)
    requires th.Summed? && n.threshold.Some? && Outweighed(th.summed, w.nodes.Keys, n.threshold)
    requires n.threshold.value <= Sum(th.summed)
    ensures SomeNode(th.summed, w.nodes.Keys)
  {
    OneOfThem(th.summed, w.nodes.Keys);
  }

  lemma ReceivingKnown(h: Hypothesis, nodes: set<Key>, signed: SignatureLog, n: Node, th: Thread, a: Action)
    requires Receiving(th) && ThreadKnown(h, nodes, th)
    ensures var after := AdvanceReceiving(signed, n, th, a);
            after.Some? ==> ThreadKnown(h, nodes, after.value)
  {
  }

  lemma CompareKnown(h: Hypothesis, w: World, n: Node, th: Thread, a: Action)
    requires th.Summed? && ThreadKnown(h, w.nodes.Keys, th)
    requires h.bounded ==> Outweighed(th.summed, w.nodes.Keys, n.threshold)
    ensures var after := AdvanceCheck(n, th, a);
            after.Some? ==> ThreadKnown(h, w.nodes.Keys, after.value)
  {
    if h.bounded && n.threshold.Some? && Sum(th.summed) >= n.threshold.value {
      CompareFindsNode(w, n, th);
    }
  }

  lemma CollectKnown(h: Hypothesis, nodes: set<Key>, n: Node, th: Thread, a: Action)
    requires th.Reached? && ThreadKnown(h, nodes, th)
    requires forall b :: 0 <= b < |n.tracker.buckets| ==> KnownResponses(h, n.tracker.buckets[b].responses)
    ensures var after := AdvanceCheck(n, th, a);
            after.Some? ==> ThreadKnown(h, nodes, after.value)
  {
    if th.bucket < |n.tracker.buckets| {
      assert KnownResponses(h, n.tracker.buckets[th.bucket].responses);
    }
  }

  lemma CheckKnown(h: Hypothesis, w: World, n: Node, th: Thread, a: Action)
    requires InCheck(th) && NodeKnown(h, w.nodes.Keys, n) && ThreadKnown(h, w.nodes.Keys, th)
    requires th.Summed? && h.bounded ==> Outweighed(th.summed, w.nodes.Keys, n.threshold)
    ensures var after := AdvanceCheck(n, th, a);
            after.Some? ==> ThreadKnown(h, w.nodes.Keys, after.value)
  {
    if th.Summed? {
      CompareKnown(h, w, n, th, a);
    } else if th.Reached? {
      CollectKnown(h, w.nodes.Keys, n, th, a);
    }
  }

  lemma SignedKnown(h: Hypothesis, w: World, n: Node, me: Key, th: Thread, a: Action)
    requires th.Processing? && ThreadKnown(h, w.nodes.Keys, th)
    ensures var after := AdvanceOwn(w, n, me, th, a);
            after.Some? ==> ThreadKnown(h, w.nodes.Keys, after.value)
  {
    if a.Sign? && Answers(w.chains, th.q, a.fetched) && Signs(th.q, a.fetched) {
      OwnResponseKnown(h, w, th.q, a.fetched, a.bytes, me);
    }
  }

  lemma AskedKnown(h: Hypothesis, w: World, n: Node, me: Key, th: Thread, a: Action)
    requires th.Checked? && ThreadKnown(h, w.nodes.Keys, th)
    ensures var after := AdvanceOwn(w, n, me, th, a);
            after.Some? ==> ThreadKnown(h, w.nodes.Keys, after.value)
  {
    AskedAgain(h, th.r);
    AskedMove(w, n, me, th.r, a);
  }

  lemma AskedMove(w: World, n: Node, me: Key, r: Response, a: Action)
    ensures AdvanceOwn(w, n, me, Checked(r), a)
         == if !a.CheckOwn? then Some(Checked(r))
            else if Tracked(n.tracker, r.taskId, me) then None else Some(Requested(RequestOf(r)))
  {
  }

  lemma AskedAgain(h: Hypothesis, r: Response)
    requires KnownResponse(h, r)
    ensures KnownRequest(h, RequestOf(r))
  {
    RequestOfKeepsParams(r);
  }

  lemma CreatedKnown(h: Hypothesis, w: World, n: Node, me: Key, th: Thread, a: Action)
    requires th.Creating? && ThreadKnown(h, w.nodes.Keys, th)
    ensures var after := AdvanceOwn(w, n, me, th, a);
            after.Some? ==> ThreadKnown(h, w.nodes.Keys, after.value)
  {
    if a.CreateRow? && ReadFrom(a.q, th.task, th.row) {
      ReadKnown(h, a.q, th.task, th.row);
    }
  }

  lemma OwnKnown(h: Hypothesis, w: World, n: Node, me: Key, th: Thread, a: Action)
    requires !Receiving(th) && !InCheck(th) && ThreadKnown(h, w.nodes.Keys, th)
    ensures var after := AdvanceOwn(w, n, me, th, a);
            after.Some? ==> ThreadKnown(h, w.nodes.Keys, after.value)
  {
    match th
    case Processing(_) => SignedKnown(h, w, n, me, th, a);
    case Checked(_) => AskedKnown(h, w, n, me, th, a);
    case Creating(_, _) => CreatedKnown(h, w, n, me, th, a);
    case _ =>
  }

  lemma AdvanceKnown(h: Hypothesis, w: World, n: Node, me: Key, th: Thread, a: Action)
    requires NodeKnown(h, w.nodes.Keys, n) && ThreadKnown(h, w.nodes.Keys, th)
    requires th.Summed? && h.bounded ==> Outweighed(th.summed, w.nodes.Keys, n.threshold)
    ensures var after := Advance(w, n, me, th, a);
            after.Some? ==> ThreadKnown(h, w.nodes.Keys, after.value)
  {
    if Receiving(th) {
      ReceivingKnown(h, w.nodes.Keys, w.signed, n, th, a);
    } else if InCheck(th) {
      CheckKnown(h, w, n, th, a);
    } else {
      OwnKnown(h, w, n, me, th, a);
    }
  }

  predicate EffectKnown(h: Hypothesis, nodes: set<Key>, e: Effect) {
    match e
    case Keep(r, _, _, _) => KnownResponse(h, r)
    case AddRecord(task, rec) => RecordKnown(h, nodes, task, rec)
    case AddRow(task, row) => KnownRow(h, task, row)
    case _ => true
  }

  lemma EffectOfKnown(h: Hypothesis, nodes: set<Key>, n: Node, me: Key, th: Thread, a: Action)
    requires ThreadKnown(h, nodes, th)
    ensures EffectKnown(h, nodes, EffectOf(n, me, th, a))
  {
  }

  lemma StoreKnown(h: Hypothesis, t: Tracker, r: Response, key: Key, weight: int)
    requires forall a :: 0 <= a < |t.buckets| ==> KnownResponses(h, t.buckets[a].responses)
    requires KnownResponse(h, r)
    ensures forall a :: 0 <= a < |Store(t, r, key, weight).buckets| ==>
              KnownResponses(h, Store(t, r, key, weight).buckets[a].responses)
  {
  }

  lemma ApplyKnown(h: Hypothesis, nodes: set<Key>, n: Node, e: Effect)
    requires NodeKnown(h, nodes, n) && EffectKnown(h, nodes, e)
    ensures NodeKnown(h, nodes, Apply(n, e))
  {
    if e.Keep? {
      StoreKnown(h, n.tracker, e.r, e.key, e.weight);
    }
  }

  lemma ActKnown(h: Hypothesis, w: World, n: Node, me: Key, tid: nat, a: Action)
    requires NodeKnown(h, w.nodes.Keys, n) && tid in n.threads
    requires n.threads[tid].Summed? && h.bounded ==> Outweighed(n.threads[tid].summed, w.nodes.Keys, n.threshold)
    ensures NodeKnown(h, w.nodes.Keys, ActStep(w, me, n, tid, a))
  {
    var th := n.threads[tid];
    EffectOfKnown(h, w.nodes.Keys, n, me, th, a);
    ApplyKnown(h, w.nodes.Keys, n, EffectOf(n, me, th, a));
    AdvanceKnown(h, w, n, me, th, a);
    var m := ActStep(w, me, n, tid, a);
    forall k | k in m.threads ensures ThreadKnown(h, w.nodes.Keys, m.threads[k]) {
      if k != tid {
        assert m.threads[k] == n.threads[k];
      }
    }
  }

  lemma SignatureTrue(h: Hypothesis, w: World, me: Key, th: Thread, a: Action)
    requires ThreadKnown(h, w.nodes.Keys, th)
    ensures forall s :: s in SignatureOf(w, me, th, a) ==> TrueSignature(w.chains, s)
  {
    if th.Processing? && a.Sign? && Answers(w.chains, th.q, a.fetched) && Signs(th.q, a.fetched) {
      OwnResponseKnown(h, w, th.q, a.fetched, a.bytes, me);
    }
  }

  // ---------- loops and arrivals ----------

  lemma RowChangesKnown(h: Hypothesis, tasks: map<TaskId, TaskRow>, task: TaskId, status: Status)
    requires KnownRows(h, tasks)
    ensures KnownRows(h, SetStatus(tasks, task, status)) && KnownRows(h, CountRetry(tasks, task))
    ensures KnownRows(h, tasks - {task})
  {
  }

  lemma KnownListTail(h: Hypothesis, todo: seq<(TaskId, TaskRow)>)
    requires KnownList(h, todo) && todo != []
    ensures KnownList(h, todo[1..])
  {
  }

  lemma SpawnKnown(h: Hypothesis, nodes: set<Key>, n: Node, tid: nat, th: Thread)
    requires NodeKnown(h, nodes, n) && ThreadKnown(h, nodes, th)
    ensures NodeKnown(h, nodes, Spawn(n, tid, th))
  {
  }

  lemma ConfirmKnown(h: Hypothesis, nodes: set<Key>, n: Node, move: ConfirmMove)
    requires NodeKnown(h, nodes, n) && n.confirms.todo != [] && (move.Promote? ==> KnownRequest(h, move.q))
    ensures NodeKnown(h, nodes, ConfirmStep(n, move))
  {
    KnownListTail(h, n.confirms.todo);
    if move.Promote? {
      SpawnKnown(h, nodes, n, move.tid, Requested(move.q));
      RowChangesKnown(h, n.tasks, n.confirms.todo[0].0, Pending);
    }
  }

  lemma TimeoutKnown(h: Hypothesis, nodes: set<Key>, n: Node, move: TimeoutMove)
    requires NodeKnown(h, nodes, n) && n.timeouts.todo != [] && (move.CountAndRun? ==> KnownRequest(h, move.q))
    ensures NodeKnown(h, nodes, TimeoutStep(n, move))
  {
    KnownListTail(h, n.timeouts.todo);
    RowChangesKnown(h, n.tasks, n.timeouts.todo[0].0, Pending);
    if move.CountAndRun? {
      SpawnKnown(h, nodes, n, move.tid, Requested(move.q));
    }
  }

  lemma ReadKnown(h: Hypothesis, q: Request, task: TaskId, row: TaskRow)
    requires ReadFrom(q, task, row) && KnownRow(h, task, row)
    ensures KnownRequest(h, q)
  {
    assert RequestParams(q) == Some(RowParams(row));
  }

  lemma PollKnown(h: Hypothesis, w: World, n: Node, step: Step)
    requires NodeKnown(h, w.nodes.Keys, n) && IsPoll(step)
    ensures NodeKnown(h, w.nodes.Keys, Poll(w, n, step))
  {
    if step.CheckHead? || step.MovePending? {
      if n.confirms.todo != [] {
        var (task, row) := n.confirms.todo[0];
        var move := ConfirmMoveOf(w, n, step);
        if move.Promote? { ReadKnown(h, move.q, task, row); }
        ConfirmKnown(h, w.nodes.Keys, n, move);
      }
    } else if n.timeouts.todo != [] {
      var (task, row) := n.timeouts.todo[0];
      var move := TimeoutMoveOf(n, step);
      if move.CountAndRun? { ReadKnown(h, move.q, task, row); }
      TimeoutKnown(h, w.nodes.Keys, n, move);
    }
  }

  lemma ArrivalKnown(h: Hypothesis, w: World, n: Node, me: Key, step: Step)
    requires NodeKnown(h, w.nodes.Keys, n) && Agrees(h, Local(me, step)) && IsArrival(step)
    ensures NodeKnown(h, w.nodes.Keys, Arrive(w, n, step))
  {
    if step.Deliver? {
      if step.operator.Some? {
        SpawnKnown(h, w.nodes.Keys, n, step.tid,
                   Received(ConvertProtoToResponse(step.m), step.operator.value.key, step.operator.value.weight));
      }
    } else {
      SpawnKnown(h, w.nodes.Keys, n, step.tid, Creating(step.task, PendingOrConfirming(step.row, step.head)));
    }
  }

  lemma UpkeepKnown(h: Hypothesis, nodes: set<Key>, n: Node, step: Step)
    requires NodeKnown(h, nodes, n) && !step.Act? && !IsArrival(step) && !IsPoll(step)
    ensures NodeKnown(h, nodes, Upkeep(n, step))
  {
  }

  lemma LocalKnown(h: Hypothesis, w: World, me: Key, step: Step)
    requires me in w.nodes && NodeKnown(h, w.nodes.Keys, w.nodes[me]) && Agrees(h, Local(me, step))
    requires h.bounded ==> FaultBound(w)
    ensures NodeKnown(h, w.nodes.Keys, NodeStep(w, me, w.nodes[me], step))
  {
    var n := w.nodes[me];
    if step.Act? {
      if step.tid in n.threads {
        ActKnown(h, w, n, me, step.tid, step.action);
      }
    } else if IsArrival(step) {
      ArrivalKnown(h, w, n, me, step);
    } else if IsPoll(step) {
      PollKnown(h, w, n, step);
    } else {
      UpkeepKnown(h, w.nodes.Keys, n, step);
    }
  }

  // ---------- the world ----------

  // The contract's answer is the value last written for that user and key up to that block of that chain.
  lemma StateAtMeans(chains: Chains, p: Params, v: nat)
    ensures StateAt(chains, p) == Some(v) <==>
            && p.chainId in chains && p.block <= chains[p.chainId].head && p.key >= 0
            && var log := chains[p.chainId].log;
               exists i :: && 0 <= i < |log| && log[i].user == p.user && log[i].key == p.key && log[i].block <= p.block
                           && log[i].value == v
                           && forall j :: i < j < |log| ==>
                                log[j].user != p.user || log[j].key != p.key || log[j].block > p.block
  {
    if p.chainId in chains && p.block <= chains[p.chainId].head && p.key >= 0 {
      var log := chains[p.chainId].log;
      if ReplayAt(log, p.user, p.key, p.block).Some? {
        ReplayMeaning(log, p.user, p.key, p.block, ReplayAt(log, p.user, p.key, p.block).value);
      }
      if i :| && 0 <= i < |log| && log[i].user == p.user && log[i].key == p.key && log[i].block <= p.block
              && log[i].value == v
              && forall j :: i < j < |log| ==>
                   log[j].user != p.user || log[j].key != p.key || log[j].block > p.block {
        ReplayMeaning(log, p.user, p.key, p.block, log[i]);
      }
    }
  }

  // Answers about existing blocks survive every new block.
  lemma ReplayExtends(c: Chain, writes: seq<Write>, user: Address, key: nat, block: nat)
    requires block <= c.head && forall i :: 0 <= i < |writes| ==> writes[i].block == c.head + 1
    ensures ReplayAt(c.log + writes, user, key, block) == ReplayAt(c.log, user, key, block)
  {
    ReplayStable(c.log, writes, user, key, block);
  }

  lemma StateStable(w: World, e: Event, p: Params)
    requires StateAt(w.chains, p).Some?
    ensures StateAt(WorldStep(w, e).chains, p) == StateAt(w.chains, p)
  {
    var chains := WorldStep(w, e).chains;
    if e.Mine? && e.chainId == p.chainId && chains != w.chains {
      var c := w.chains[p.chainId];
      ReplayExtends(c, e.writes, p.user, p.key, p.block);
      assert chains[p.chainId] == Chain(c.head + 1, c.log + e.writes);
    } else {
      assert p.chainId in chains && chains[p.chainId] == w.chains[p.chainId];
    }
  }

  lemma MineKeepsChains(w: World, e: Event)
    requires ChainsInv(w.chains)
    ensures ChainsInv(WorldStep(w, e).chains)
  {
  }

  lemma SignatureStaysTrue(w: World, e: Event, s: Signature)
    requires ChainsInv(w.chains) && TrueSignature(w.chains, s)
    ensures TrueSignature(WorldStep(w, e).chains, s)
  {
    var p :| InRange(p) && s.message == Pack(p) && StateAt(w.chains, p) == Some(p.value as nat);
    StateStable(w, e, p);
  }

  lemma LogStaysTrue(h: Hypothesis, w: World, e: Event)
    requires ChainsInv(w.chains) && LogTrue(w) && forall k :: k in w.nodes ==> NodeKnown(h, w.nodes.Keys, w.nodes[k])
    ensures LogTrue(WorldStep(w, e))
  {
    var v := WorldStep(w, e);
    forall s | s in v.signed && s.key in v.nodes ensures TrueSignature(v.chains, s) {
      if s in w.signed {
        SignatureStaysTrue(w, e, s);
      } else {
        var n := w.nodes[e.me];
        SignatureTrue(h, w, e.me, n.threads[e.step.tid], e.step.action);
      }
    }
  }

  ghost predicate ValidInv(h: Hypothesis, w: World) {
    ChainsInv(w.chains) && LogTrue(w) && forall k :: k in w.nodes ==> NodeKnown(h, w.nodes.Keys, w.nodes[k])
  }

  lemma WorldStepValid(h: Hypothesis, w: World, e: Event)
    requires ValidInv(h, w) && (h.bounded ==> FaultBound(w)) && Agrees(h, e)
    ensures ValidInv(h, WorldStep(w, e))
  {
    var v := WorldStep(w, e);
    MineKeepsChains(w, e);
    LogStaysTrue(h, w, e);
    assert v.nodes.Keys == w.nodes.Keys;
    forall k | k in v.nodes ensures NodeKnown(h, v.nodes.Keys, v.nodes[k]) {
      if e.Local? && e.me == k {
        LocalKnown(h, w, k, e.step);
      } else {
        assert v.nodes[k] == w.nodes[k];
      }
    }
  }

  lemma {:induction false} Valid(h: Hypothesis, states: seq<World>, events: seq<Event>, k: nat)
    requires Assumed(h, states, events) && k <= |events|
    ensures ValidInv(h, states[k])
  {
    if k > 0 {
      Valid(h, states, events, k - 1);
      WorldStepValid(h, states[k - 1], events[k - 1]);
    }
  }

  // ---------- main results ----------

  // A claim that a node's key signed holds on the chain.
  lemma NodeSignedTruth(w: World, key: Key, r: Response)
    requires LogTrue(w) && key in w.nodes && Verifies(w.signed, r, key) && InRange(ParamsOf(r).value)
    ensures HoldsOn(w.chains, ParamsOf(r).value)
  {
    var claimed := ParamsOf(r).value;
    assert TrueSignature(w.chains, Signature(key, Pack(claimed), r.signature));
    var p :| InRange(p) && Pack(claimed) == Pack(p) && StateAt(w.chains, p) == Some(p.value as nat);
    PackInjective(p, claimed);
  }

  // Whatever task ids are used for and whoever holds the weight: each signer of a record that runs a node signed a
  // claim that holds, and a record whose check was triggered by the response of a node's key is true.
  lemma SignersThatAreNodesTellTheTruth(states: seq<World>, events: seq<Event>, k: nat, me: Key, task: TaskId)
    returns (r: Response, p: Past)
    requires Assumed(InWidth(), states, events) && k <= |events|
    requires me in states[k].nodes && task in states[k].nodes[me].records
    ensures p.stored <= k && StoredAs(states[p.stored], me, r, p.key) && r.taskId == task
    ensures var rec := states[k].nodes[me].records[task];
            && ParamsOf(r) == Some(RecordParams(rec))
            && (p.key in states[k].nodes ==> HoldsOn(states[k].chains, RecordParams(rec)))
            && forall key :: key in rec.evidence.responses && key in states[k].nodes ==>
                 && ParamsOf(rec.evidence.responses[key]).Some?
                 && HoldsOn(states[k].chains, ParamsOf(rec.evidence.responses[key]).value)
  {
    r, p := RecordSaysWhatTriggerClaims(states, events, k, me, task);
    Valid(InWidth(), states, events, k);
    Safe(states, events, k);
    var v, rec := states[k], states[k].nodes[me].records[task];
    assert RecordInv(v.signed, task, rec) && RecordKnown(InWidth(), v.nodes.Keys, task, rec);
    if p.key in v.nodes {
      NodeSignedTruth(v, p.key, r);
    }
    forall key | key in rec.evidence.responses && key in v.nodes
      ensures ParamsOf(rec.evidence.responses[key]).Some?
      ensures HoldsOn(v.chains, ParamsOf(rec.evidence.responses[key]).value)
    {
      assert KnownResponse(InWidth(), rec.evidence.responses[key]);
      NodeSignedTruth(v, key, rec.evidence.responses[key]);
    }
  }

  // Every recorded value is the chain's value for that target, key and block, read on the chain as it is now.
  lemma RecordedValueIsChainState(f: Meaning, states: seq<World>, events: seq<Event>, k: nat, me: Key, task: TaskId)
    requires Assumed(Agreement(f), states, events) && k <= |events|
    requires me in states[k].nodes && task in states[k].nodes[me].records
    ensures var rec := states[k].nodes[me].records[task];
            rec.value >= 0 && StateAt(states[k].chains, RecordParams(rec)) == Some(rec.value as nat)
  {
    Valid(Agreement(f), states, events, k);
    Safe(states, events, k);
    RecordTrue(f, states[k], me, task);
  }

  // Some node is behind every record, and what that node signed is what the record says.
  lemma RecordTrue(f: Meaning, v: World, me: Key, task: TaskId)
    requires ValidInv(Agreement(f), v) && WorldInv(v) && me in v.nodes && task in v.nodes[me].records
    ensures HoldsOn(v.chains, RecordParams(v.nodes[me].records[task]))
  {
    var rec := v.nodes[me].records[task];
    assert RecordInv(v.signed, task, rec) && RecordKnown(Agreement(f), v.nodes.Keys, task, rec);
    var key :| key in rec.evidence.summed && key in v.nodes;
    var r := rec.evidence.responses[key];
    assert Verifies(v.signed, r, key) && KnownResponse(Agreement(f), r) && r.taskId == task;
    NodeSignedTruth(v, key, r);
  }

  // Any two nodes that recorded an answer to one request recorded the same answer.
  lemma RecordsAgree(f: Meaning, states: seq<World>, events: seq<Event>, k: nat, a: Key, b: Key, t: TaskId, u: TaskId)
    requires Assumed(Agreement(f), states, events) && k <= |events| && a in states[k].nodes && b in states[k].nodes
    requires t in states[k].nodes[a].records && u in states[k].nodes[b].records
    requires var p := RecordParams(states[k].nodes[a].records[t]);
             var q := RecordParams(states[k].nodes[b].records[u]);
             p.user == q.user && p.chainId == q.chainId && p.block == q.block && p.key == q.key
    ensures states[k].nodes[a].records[t].value == states[k].nodes[b].records[u].value
  {
    RecordedValueIsChainState(f, states, events, k, a, t);
    RecordedValueIsChainState(f, states, events, k, b, u);
  }
}
