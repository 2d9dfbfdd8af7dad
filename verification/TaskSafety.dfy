// What every interleaving keeps: the tracker holds verified responses, records are backed by complete evidence and
// unique, completed rows have records, and everything a node publishes verifies.
module TaskSafety {
  import opened Basics
  import opened Packing
  import opened KeyOrder
  import opened TaskModel
  import opened TaskMachine

  // Every response is filed under its task and verifies under the key it is filed under.
  predicate Vouched(signed: SignatureLog, responses: map<Key, Response>, task: TaskId) {
    forall k :: k in responses ==> responses[k].taskId == task && Verifies(signed, responses[k], k)
  }

  predicate BucketInv(signed: SignatureLog, b: Bucket) {
    b.responses.Keys == b.weights.Keys && Vouched(signed, b.responses, b.task)
  }

  predicate TrackerInv(signed: SignatureLog, t: Tracker) {
    forall a :: 0 <= a < |t.buckets| ==> BucketInv(signed, t.buckets[a])
  }

  ghost predicate EvidenceInv(signed: SignatureLog, task: TaskId, e: Evidence) {
    && Vouched(signed, e.responses, task)
    && e.operators.Keys == e.responses.Keys
    && e.summed.Keys <= e.responses.Keys
    && Sum(e.summed) >= e.threshold
  }

  ghost predicate RecordInv(signed: SignatureLog, task: TaskId, rec: Record) {
    && EvidenceInv(signed, task, rec.evidence)
    && rec.signatures == Signatures(rec.evidence.responses)
    && rec.addresses == Addresses(rec.evidence.responses, rec.evidence.operators)
  }

  ghost predicate RecordsInv(signed: SignatureLog, records: map<TaskId, Record>) {
    (forall t :: t in records ==> RecordInv(signed, t, records[t])) && Unique(records)
  }

  predicate Unique(records: map<TaskId, Record>) {
    forall t, u :: t in records && u in records && t != u ==> !SameRequest(records[t], records[u])
  }

  predicate CompletedInv(tasks: map<TaskId, TaskRow>, records: map<TaskId, Record>) {
    forall t :: t in tasks && tasks[t].status == Completed ==> t in records
  }

  predicate SentInv(signed: SignatureLog, me: Key, sent: set<Response>) {
    forall r :: r in sent ==> Verifies(signed, ConvertProtoToResponse(BroadcastMessage(r)), me)
  }

  predicate Refers(t: Tracker, b: nat, task: TaskId, keys: set<Key>) {
    b < |t.buckets| && t.buckets[b].task == task && keys <= t.buckets[b].responses.Keys
  }

  ghost predicate ThreadInv(signed: SignatureLog, me: Key, n: Node, th: Thread) {
    match th
    case Verified(r, key, _) => Verifies(signed, r, key)
    case Holding(r, _, b) => Refers(n.tracker, b, r.taskId, {})
    case Summed(r, _, b, summed) => Refers(n.tracker, b, r.taskId, summed.Keys)
    case Reached(r, _, b, summed, threshold) => Refers(n.tracker, b, r.taskId, summed.Keys) && Sum(summed) >= threshold
    case Collected(r, _, e) => EvidenceInv(signed, r.taskId, e)
    case Recorded(r, _) => r.taskId in n.records
    case Requested(q) => q.key.valid
    case Processing(q) => q.key.valid
    case Signed(r) => Verifies(signed, r, me)
    case Stored(r) => Verifies(signed, r, me)
    case Creating(_, row) => row.status != Completed
    case _ => true
  }

  ghost predicate ThreadsInv(signed: SignatureLog, me: Key, n: Node) {
    forall tid :: tid in n.threads ==> ThreadInv(signed, me, n, n.threads[tid])
  }

  ghost predicate NodeInv(signed: SignatureLog, me: Key, n: Node) {
    && TrackerInv(signed, n.tracker)
    && RecordsInv(signed, n.records)
    && CompletedInv(n.tasks, n.records)
    && SentInv(signed, me, n.sent)
    && ThreadsInv(signed, me, n)
  }

  // ---------- growth ----------

  // Buckets keep their task and gain keys; records are never removed.
  predicate Grows(n: Node, m: Node) {
    && |n.tracker.buckets| <= |m.tracker.buckets|
    && (forall a :: 0 <= a < |n.tracker.buckets| ==>
          n.tracker.buckets[a].task == m.tracker.buckets[a].task
          && n.tracker.buckets[a].responses.Keys <= m.tracker.buckets[a].responses.Keys)
    && n.records.Keys <= m.records.Keys
  }

  lemma ThreadInvGrows(signed: SignatureLog, more: SignatureLog, me: Key, n: Node, m: Node, th: Thread)
    requires ThreadInv(signed, me, n, th) && Grows(n, m) && signed <= more
    ensures ThreadInv(more, me, m, th)
  {
  }

  lemma NodeInvMoreSigned(signed: SignatureLog, more: SignatureLog, me: Key, n: Node)
    requires NodeInv(signed, me, n) && signed <= more
    ensures NodeInv(more, me, n)
  {
    assert Grows(n, n);
    forall tid | tid in n.threads ensures ThreadInv(more, me, n, n.threads[tid]) {
      ThreadInvGrows(signed, more, me, n, n, n.threads[tid]);
    }
    assert TrackerInv(more, n.tracker);
    forall t | t in n.records ensures RecordInv(more, t, n.records[t]) {
    }
  }

  // ---------- one action of a goroutine ----------

  lemma StoreKeepsTracker(signed: SignatureLog, t: Tracker, r: Response, key: Key, weight: int)
    requires TrackerInv(signed, t) && Verifies(signed, r, key)
    ensures TrackerInv(signed, Store(t, r, key, weight))
  {
  }

  lemma StoreGrows(t: Tracker, r: Response, key: Key, weight: int)
    ensures var u := Store(t, r, key, weight);
            && |t.buckets| <= |u.buckets|
            && (forall a :: 0 <= a < |t.buckets| ==>
                  t.buckets[a].task == u.buckets[a].task
                  && t.buckets[a].responses.Keys <= u.buckets[a].responses.Keys)
  {
  }

  // What an effect needs so that it keeps the invariants.
  ghost predicate Justified(signed: SignatureLog, me: Key, n: Node, e: Effect) {
    match e
    case Keep(r, key, _, _) => Verifies(signed, r, key)
    case AddRecord(task, rec) => RecordInv(signed, task, rec) && MayInsert(n.records, task, rec)
    case Finish(task) => task in n.records
    case AddRow(_, row) => row.status != Completed
    case Send(r) => Verifies(signed, r, me)
    case Quiet => true
  }

  lemma KeepKeeps(signed: SignatureLog, me: Key, n: Node, e: Effect)
    requires e.Keep? && TrackerInv(signed, n.tracker) && Verifies(signed, e.r, e.key)
    ensures TrackerInv(signed, Apply(n, e).tracker) && Grows(n, Apply(n, e))
    ensures var m := Apply(n, e);
            m.records == n.records && m.tasks == n.tasks && m.sent == n.sent && m.threads == n.threads
  {
    StoreKeepsTracker(signed, n.tracker, e.r, e.key, e.weight);
    StoreGrows(n.tracker, e.r, e.key, e.weight);
  }

  lemma ApplyKeeps(signed: SignatureLog, me: Key, n: Node, e: Effect)
    requires TrackerInv(signed, n.tracker) && RecordsInv(signed, n.records) && CompletedInv(n.tasks, n.records)
    requires SentInv(signed, me, n.sent) && Justified(signed, me, n, e)
    ensures var m := Apply(n, e);
            && TrackerInv(signed, m.tracker) && RecordsInv(signed, m.records) && CompletedInv(m.tasks, m.records)
            && SentInv(signed, me, m.sent) && Grows(n, m) && m.threads == n.threads
  {
    match e
    case Keep(_, _, _, _) => KeepKeeps(signed, me, n, e);
    case AddRecord(task, rec) => AddRecordKeeps(signed, me, n, e);
    case _ =>
  }

  lemma AddRecordKeeps(signed: SignatureLog, me: Key, n: Node, e: Effect)
    requires e.AddRecord? && RecordsInv(signed, n.records) && CompletedInv(n.tasks, n.records)
    requires Justified(signed, me, n, e)
    ensures var m := Apply(n, e);
            && RecordsInv(signed, m.records) && CompletedInv(m.tasks, m.records) && Grows(n, m)
            && m.tracker == n.tracker && m.sent == n.sent && m.threads == n.threads
  {
    InsertKeepsRecords(signed, n.records, e.task, e.rec);
  }

  lemma InsertKeepsRecords(signed: SignatureLog, records: map<TaskId, Record>, task: TaskId, rec: Record)
    requires RecordsInv(signed, records) && RecordInv(signed, task, rec) && MayInsert(records, task, rec)
    ensures RecordsInv(signed, records[task := rec])
  {
    InsertKeepsUnique(records, task, rec);
  }

  lemma InsertKeepsUnique(records: map<TaskId, Record>, task: TaskId, rec: Record)
    requires Unique(records) && MayInsert(records, task, rec)
    ensures Unique(records[task := rec])
  {
    var more := records[task := rec];
    forall t, u | t in more && u in more && t != u ensures !SameRequest(more[t], more[u]) {
      if t == task {
        assert !SameRequest(records[u], rec);
      } else if u == task {
        assert !SameRequest(records[t], rec);
      }
    }
  }

  lemma EffectJustified(w: World, n: Node, me: Key, th: Thread, a: Action)
    requires ThreadInv(w.signed, me, n, th)
    ensures Justified(w.signed, me, n, EffectOf(n, me, th, a))
  {
  }

  // The own response carries the signature just made.
  lemma SigningVerifies(w: World, me: Key, q: Request, fetched: Option<nat>, bytes: Bytes)
    requires q.key.valid && Answers(w.chains, q, fetched) && Signs(q, fetched)
    ensures Verifies(w.signed + SignatureOf(w, me, Processing(q), Sign(fetched, bytes)),
                     OwnResponse(q, fetched.value, bytes), me)
  {
    var signed := w.signed + SignatureOf(w, me, Processing(q), Sign(fetched, bytes));
    assert Signature(me, Pack(RequestParams(q).value), bytes) in signed;
    OwnResponseVerifies(signed, q, fetched.value, me, bytes);
  }

  lemma ReceivingAdvances(w: World, n: Node, me: Key, th: Thread, a: Action)
    requires Receiving(th) && ThreadInv(w.signed, me, n, th)
    ensures var after := AdvanceReceiving(w.signed, n, th, a);
            after.Some? ==> ThreadInv(w.signed, me, n, after.value)
  {
  }

  // Everything but the insertion of a record.
  lemma CheckAdvances(w: World, n: Node, me: Key, th: Thread, a: Action)
    requires InCheck(th) && !th.Collected? && TrackerInv(w.signed, n.tracker) && ThreadInv(w.signed, me, n, th)
    ensures var after := AdvanceCheck(n, th, a);
            after.Some? ==> ThreadInv(w.signed, me, n, after.value)
  {
    if th.Holding? || th.Reached? {
      assert BucketInv(w.signed, n.tracker.buckets[th.bucket]);
    }
  }

  lemma CollectedAdvances(w: World, n: Node, me: Key, th: Thread, a: Action)
    requires th.Collected? && ThreadInv(w.signed, me, n, th)
    ensures var after := AdvanceCheck(n, th, a);
            after.Some? ==> ThreadInv(w.signed, me, Apply(n, EffectOf(n, me, th, a)), after.value)
  {
  }

  lemma OwnAdvances(w: World, n: Node, me: Key, th: Thread, a: Action)
    requires !Receiving(th) && !InCheck(th) && ThreadInv(w.signed, me, n, th)
    ensures var after := AdvanceOwn(w, n, me, th, a);
            after.Some? ==> ThreadInv(w.signed + SignatureOf(w, me, th, a), me, n, after.value)
  {
    if th.Processing? && a.Sign? && Answers(w.chains, th.q, a.fetched) && Signs(th.q, a.fetched) {
      SigningVerifies(w, me, th.q, a.fetched, a.bytes);
    }
  }

  lemma AdvanceKeeps(w: World, n: Node, me: Key, th: Thread, a: Action)
    requires TrackerInv(w.signed, n.tracker) && ThreadInv(w.signed, me, n, th)
    requires Grows(n, Apply(n, EffectOf(n, me, th, a)))
    ensures var after := Advance(w, n, me, th, a);
            after.Some? ==>
              ThreadInv(w.signed + SignatureOf(w, me, th, a), me, Apply(n, EffectOf(n, me, th, a)), after.value)
  {
    var after := Advance(w, n, me, th, a);
    var m := Apply(n, EffectOf(n, me, th, a));
    var more := w.signed + SignatureOf(w, me, th, a);
    if Receiving(th) {
      ReceivingAdvances(w, n, me, th, a);
      if after.Some? { ThreadInvGrows(w.signed, more, me, n, m, after.value); }
    } else if th.Collected? {
      CollectedAdvances(w, n, me, th, a);
      assert Grows(m, m);
      if after.Some? { ThreadInvGrows(w.signed, more, me, m, m, after.value); }
    } else if InCheck(th) {
      CheckAdvances(w, n, me, th, a);
      if after.Some? { ThreadInvGrows(w.signed, more, me, n, m, after.value); }
    } else {
      OwnAdvances(w, n, me, th, a);
      if after.Some? { ThreadInvGrows(more, more, me, n, m, after.value); }
    }
  }

  lemma ActKeeps(w: World, n: Node, me: Key, tid: nat, a: Action)
    requires NodeInv(w.signed, me, n) && tid in n.threads
    ensures NodeInv(w.signed + SignatureOf(w, me, n.threads[tid], a), me, ActStep(w, me, n, tid, a))
  {
    var th := n.threads[tid];
    var signed := w.signed + SignatureOf(w, me, th, a);
    var e := EffectOf(n, me, th, a);
    var m := ActStep(w, me, n, tid, a);
    EffectJustified(w, n, me, th, a);
    ApplyKeeps(w.signed, me, n, e);
    AdvanceKeeps(w, n, me, th, a);
    var applied := Apply(n, e);
    forall k | k in m.threads ensures ThreadInv(signed, me, m, m.threads[k]) {
      if k == tid {
        ThreadInvGrows(signed, signed, me, applied, m, m.threads[k]);
      } else {
        ThreadInvGrows(w.signed, signed, me, n, m, m.threads[k]);
      }
    }
    MoreSignedComponents(w.signed, signed, me, m);
  }

  lemma MoreSignedComponents(signed: SignatureLog, more: SignatureLog, me: Key, n: Node)
    requires TrackerInv(signed, n.tracker) && RecordsInv(signed, n.records) && SentInv(signed, me, n.sent)
    requires signed <= more
    ensures TrackerInv(more, n.tracker) && RecordsInv(more, n.records) && SentInv(more, me, n.sent)
  {
    assert forall a :: 0 <= a < |n.tracker.buckets| ==> BucketInv(signed, n.tracker.buckets[a]);
    forall t | t in n.records ensures RecordInv(more, t, n.records[t]) {
      assert RecordInv(signed, t, n.records[t]);
    }
  }

  // ---------- every step ----------

  lemma LoopKeeps(w: World, n: Node, me: Key, step: Step)
    requires NodeInv(w.signed, me, n) && !step.Act?
    ensures NodeInv(w.signed, me, NodeStep(w, me, n, step))
  {
    var m := NodeStep(w, me, n, step);
    LoopChanges(w, n, me, step);
    forall tid | tid in m.threads ensures ThreadInv(w.signed, me, m, m.threads[tid]) {
      if tid in n.threads {
        ThreadInvGrows(w.signed, w.signed, me, n, m, n.threads[tid]);
      }
    }
  }

  // Outside goroutine actions: outer maps may be dropped, rows never become completed, new goroutines are young.
  predicate Young(th: Thread) {
    match th
    case Received(_, _, _) => true
    case Creating(_, row) => row.status != Completed
    case Requested(q) => q.key.valid
    case _ => false
  }

  // Nothing but a goroutine completes a row.
  predicate NoneCompleted(tasks: map<TaskId, TaskRow>, after: map<TaskId, TaskRow>) {
    forall t :: t in after && after[t].status == Completed ==> t in tasks && tasks[t].status == Completed
  }

  predicate OnlyYoung(threads: map<nat, Thread>, after: map<nat, Thread>) {
    && (forall tid :: tid in threads ==> tid in after && after[tid] == threads[tid])
    && (forall tid :: tid in after && tid !in threads ==> Young(after[tid]))
  }

  predicate OnlyLoops(n: Node, m: Node) {
    && m.tracker.buckets == n.tracker.buckets && m.records == n.records && m.sent == n.sent
    && NoneCompleted(n.tasks, m.tasks)
    && OnlyYoung(n.threads, m.threads)
  }

  lemma SpawnYoung(n: Node, tid: nat, th: Thread)
    requires Young(th)
    ensures OnlyYoung(n.threads, Spawn(n, tid, th).threads)
  {
  }

  lemma RowChanges(tasks: map<TaskId, TaskRow>, task: TaskId)
    ensures NoneCompleted(tasks, tasks) && NoneCompleted(tasks, tasks - {task})
    ensures NoneCompleted(tasks, SetStatus(tasks, task, Pending)) && NoneCompleted(tasks, CountRetry(tasks, task))
  {
  }

  lemma ConfirmChanges(n: Node, move: ConfirmMove)
    requires n.confirms.todo != [] && (move.Promote? ==> move.q.key.valid)
    ensures OnlyLoops(n, ConfirmStep(n, move))
  {
    RowChanges(n.tasks, n.confirms.todo[0].0);
    if move.Promote? {
      SpawnYoung(n, move.tid, Requested(move.q));
    }
  }

  lemma TimeoutChanges(n: Node, move: TimeoutMove)
    requires n.timeouts.todo != [] && (move.CountAndRun? ==> move.q.key.valid)
    ensures OnlyLoops(n, TimeoutStep(n, move))
  {
    RowChanges(n.tasks, n.timeouts.todo[0].0);
    match move
    case CountAndRun(tid, q) => SpawnYoung(n, tid, Requested(q));
    case _ =>
  }

  lemma PollChanges(w: World, n: Node, step: Step)
    requires IsPoll(step)
    ensures OnlyLoops(n, Poll(w, n, step))
  {
    if step.CheckHead? || step.MovePending? {
      if n.confirms.todo != [] {
        ConfirmChanges(n, ConfirmMoveOf(w, n, step));
      }
    } else if n.timeouts.todo != [] {
      TimeoutChanges(n, TimeoutMoveOf(n, step));
    }
  }

  lemma ArrivalChanges(w: World, n: Node, step: Step)
    requires IsArrival(step)
    ensures OnlyLoops(n, Arrive(w, n, step))
  {
    if step.Deliver? {
      if step.operator.Some? {
        SpawnYoung(n, step.tid,
                   Received(ConvertProtoToResponse(step.m), step.operator.value.key, step.operator.value.weight));
      }
    } else {
      SpawnYoung(n, step.tid, Creating(step.task, PendingOrConfirming(step.row, step.head)));
    }
  }

  lemma UpkeepChanges(n: Node, step: Step)
    requires !step.Act? && !IsArrival(step) && !IsPoll(step)
    ensures OnlyLoops(n, Upkeep(n, step))
  {
  }

  lemma LoopChanges(w: World, n: Node, me: Key, step: Step)
    requires !step.Act?
    ensures OnlyLoops(n, NodeStep(w, me, n, step))
  {
    if IsArrival(step) {
      ArrivalChanges(w, n, step);
    } else if IsPoll(step) {
      PollChanges(w, n, step);
    } else {
      UpkeepChanges(n, step);
    }
  }

  lemma LocalStep(w: World, me: Key, step: Step)
    requires me in w.nodes
    ensures var v := WorldStep(w, Local(me, step));
            && v.nodes == w.nodes[me := NodeStep(w, me, w.nodes[me], step)] && w.signed <= v.signed
            && (step.Act? && step.tid in w.nodes[me].threads ==>
                  v.signed == w.signed + SignatureOf(w, me, w.nodes[me].threads[step.tid], step.action))
  {
  }

  lemma LocalKeeps(w: World, me: Key, step: Step)
    requires me in w.nodes && NodeInv(w.signed, me, w.nodes[me])
    ensures var v := WorldStep(w, Local(me, step));
            w.signed <= v.signed && NodeInv(v.signed, me, v.nodes[me])
  {
    var n, v := w.nodes[me], WorldStep(w, Local(me, step));
    LocalStep(w, me, step);
    if step.Act? && step.tid in n.threads {
      ActKeeps(w, n, me, step.tid, step.action);
    } else {
      if !step.Act? {
        LoopKeeps(w, n, me, step);
      }
      NodeInvMoreSigned(w.signed, v.signed, me, v.nodes[me]);
    }
  }

  ghost predicate WorldInv(w: World) {
    forall k :: k in w.nodes ==> NodeInv(w.signed, k, w.nodes[k])
  }

  lemma OthersKeep(w: World, e: Event, k: Key)
    requires k in w.nodes && NodeInv(w.signed, k, w.nodes[k]) && !(e.Local? && e.me == k)
    ensures var v := WorldStep(w, e);
            k in v.nodes && v.nodes[k] == w.nodes[k] && NodeInv(v.signed, k, v.nodes[k])
  {
    NodeInvMoreSigned(w.signed, WorldStep(w, e).signed, k, w.nodes[k]);
  }

  lemma WorldStepKeeps(w: World, e: Event)
    requires WorldInv(w)
    ensures WorldInv(WorldStep(w, e)) && WorldStep(w, e).nodes.Keys == w.nodes.Keys
  {
    var v := WorldStep(w, e);
    assert v.nodes.Keys == w.nodes.Keys;
    forall k | k in v.nodes ensures NodeInv(v.signed, k, v.nodes[k]) {
      if e.Local? && e.me == k {
        LocalKeeps(w, k, e.step);
      } else {
        OthersKeep(w, e, k);
      }
    }
  }

  lemma {:induction false} Safe(states: seq<World>, events: seq<Event>, k: nat)
    requires Run(states, events) && k <= |events|
    ensures WorldInv(states[k]) && states[k].nodes.Keys == states[0].nodes.Keys
  {
    if k > 0 {
      Safe(states, events, k - 1);
      WorldStepKeeps(states[k - 1], events[k - 1]);
    }
  }

  // ---------- main results ----------

  // The tracker under every interleaving: responses and weights have the same keys, and every entry belongs to its
  // task and carries a signature of its key over its own fields.
  lemma TrackerConsistent(states: seq<World>, events: seq<Event>, k: nat, me: Key, task: TaskId)
    requires Run(states, events) && k <= |events|
    requires me in states[k].nodes && task in states[k].nodes[me].tracker.current
    ensures var t := states[k].nodes[me].tracker;
            var b := t.buckets[t.current[task]];
            && b.responses.Keys == b.weights.Keys
            && forall key :: key in b.responses ==>
                 b.responses[key].taskId == task && Verifies(states[k].signed, b.responses[key], key)
  {
    Safe(states, events, k);
    var t := states[k].nodes[me].tracker;
    assert BucketInv(states[k].signed, t.buckets[t.current[task]]);
  }

  // The form of a record: signature i and address i are those of the i-th responder of its evidence, in strictly
  // ascending order of keys; the responses are for the record's task and verify.
  lemma CertificateForm(signed: SignatureLog, task: TaskId, rec: Record)
    requires RecordInv(signed, task, rec)
    ensures var e := rec.evidence;
            var signers := Sorted(e.responses.Keys);
            && Ascending(signers) && Lists(signers, e.responses.Keys)
            && |rec.signatures| == |rec.addresses| == |signers|
            && (forall i :: 0 <= i < |signers| ==>
                  && signers[i] in e.responses && signers[i] in e.operators
                  && rec.signatures[i] == e.responses[signers[i]].signature
                  && rec.addresses[i] == e.operators[signers[i]]
                  && e.responses[signers[i]].taskId == task
                  && Verifies(signed, e.responses[signers[i]], signers[i]))
            && (forall key :: key in e.summed ==> key in signers)
  {
    var signers := Sorted(rec.evidence.responses.Keys);
    forall i | 0 <= i < |signers| ensures signers[i] in rec.evidence.responses {
      assert signers[i] in signers;
    }
  }

  // The certificate does not depend on the order in which the map of responses is walked.
  lemma CertificateCanonical(responses: map<Key, Response>, operators: map<Key, string>, walked: seq<Key>)
    requires Ascending(walked) && Lists(walked, responses.Keys) && responses.Keys <= operators.Keys
    ensures |Signatures(responses)| == |Addresses(responses, operators)| == |walked|
    ensures forall i :: 0 <= i < |walked| ==>
              && walked[i] in responses && Signatures(responses)[i] == responses[walked[i]].signature
              && Addresses(responses, operators)[i] == operators[walked[i]]
  {
    SortedIsTheListing(walked, responses.Keys);
    forall i | 0 <= i < |walked| ensures walked[i] in responses {
      assert walked[i] in walked;
    }
  }

  // At most one record per task and per request, and a completed row always has its record.
  lemma RecordsUnique(states: seq<World>, events: seq<Event>, k: nat, me: Key)
    requires Run(states, events) && k <= |events| && me in states[k].nodes
    ensures var n := states[k].nodes[me];
            && (forall t, u :: t in n.records && u in n.records && t != u ==>
                  !(&& n.records[t].target == n.records[u].target && n.records[t].chainId == n.records[u].chainId
                    && n.records[t].block == n.records[u].block && n.records[t].key == n.records[u].key))
            && (forall t :: t in n.tasks && n.tasks[t].status == Completed ==> t in n.records)
  {
    Safe(states, events, k);
  }

  lemma ApplyKeepsRecords(n: Node, me: Key, th: Thread, a: Action, task: TaskId)
    requires task in n.records
    ensures var m := Apply(n, EffectOf(n, me, th, a));
            task in m.records && m.records[task] == n.records[task]
  {
  }

  lemma RecordKept(w: World, e: Event, me: Key, task: TaskId)
    requires me in w.nodes && task in w.nodes[me].records
    ensures var v := WorldStep(w, e);
            me in v.nodes && task in v.nodes[me].records && v.nodes[me].records[task] == w.nodes[me].records[task]
  {
    if e.Local? && e.me == me {
      var n := w.nodes[me];
      LocalStep(w, me, e.step);
      if !e.step.Act? {
        LoopChanges(w, n, me, e.step);
      } else if e.step.tid in n.threads {
        ApplyKeepsRecords(n, me, n.threads[e.step.tid], e.step.action, task);
      }
    }
  }

  // A record never changes once written.
  lemma {:induction false} RecordsNeverChange(states: seq<World>, events: seq<Event>, j: nat, k: nat, me: Key,
                                              task: TaskId)
    requires Run(states, events) && j <= k <= |events|
    requires me in states[j].nodes && task in states[j].nodes[me].records
    ensures me in states[k].nodes && task in states[k].nodes[me].records
    ensures states[k].nodes[me].records[task] == states[j].nodes[me].records[task]
    decreases k
  {
    if j < k {
      RecordsNeverChange(states, events, j, k - 1, me, task);
      RecordKept(states[k - 1], events[k - 1], me, task);
    }
  }

  // Whatever a node publishes, re-parsed by a receiver, passes verification under the node's key.
  lemma PublishedVerifies(states: seq<World>, events: seq<Event>, k: nat, me: Key, r: Response)
    requires Run(states, events) && k <= |events| && me in states[k].nodes && r in states[k].nodes[me].sent
    ensures Verifies(states[k].signed, ConvertProtoToResponse(BroadcastMessage(r)), me)
  {
    Safe(states, events, k);
    assert SentInv(states[k].signed, me, states[k].nodes[me].sent);
  }
}
