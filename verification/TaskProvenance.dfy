// Where records come from: every certificate is what the node's tracker held, and every threshold one that was in
// force, at moments of the run in the order of the code (pkg/operator/task/consensus.go).
module TaskProvenance {
  import opened Basics
  import opened Decimal
  import opened Packing
  import opened KeyOrder
  import opened TaskModel
  import opened TaskMachine
  import opened TaskSafety

  // ---------- moments of a run ----------

  // The response is tracked under the key.
  predicate StoredAs(w: World, me: Key, r: Response, key: Key) {
    me in w.nodes && Tracked(w.nodes[me].tracker, r.taskId, key)
    && w.nodes[me].tracker.buckets[w.nodes[me].tracker.current[r.taskId]].responses[key] == r
  }

  // The bucket is the one tracked for the task.
  predicate CurrentBucket(w: World, me: Key, task: TaskId, b: nat) {
    me in w.nodes && task in w.nodes[me].tracker.current && w.nodes[me].tracker.current[task] == b
  }

  predicate BucketWeighs(w: World, me: Key, b: nat, weights: map<Key, int>) {
    me in w.nodes && b < |w.nodes[me].tracker.buckets| && w.nodes[me].tracker.buckets[b].weights == weights
  }

  predicate BucketHolds(w: World, me: Key, b: nat, responses: map<Key, Response>) {
    me in w.nodes && b < |w.nodes[me].tracker.buckets| && w.nodes[me].tracker.buckets[b].responses == responses
  }

  predicate InForce(w: World, me: Key, threshold: int) { me in w.nodes && w.nodes[me].threshold == Some(threshold) }

  // When a check's response was stored and under which key, when it took which bucket, added up its weights, read the
  // threshold and collected its responses.
  datatype Past = Past(stored: nat, key: Key, taken: nat, bucket: nat, added: nat, compared: nat, collected: nat)

  predicate Began(states: seq<World>, k: nat, me: Key, r: Response, p: Past) {
    p.stored <= k < |states| && StoredAs(states[p.stored], me, r, p.key)
  }

  predicate Took(states: seq<World>, k: nat, me: Key, r: Response, p: Past) {
    Began(states, k, me, r, p) && p.stored <= p.taken <= k && CurrentBucket(states[p.taken], me, r.taskId, p.bucket)
  }

  predicate Added(states: seq<World>, k: nat, me: Key, r: Response, summed: map<Key, int>, p: Past) {
    Took(states, k, me, r, p) && p.taken <= p.added <= k && BucketWeighs(states[p.added], me, p.bucket, summed)
  }

  ghost predicate Compared(states: seq<World>, k: nat, me: Key, r: Response, summed: map<Key, int>, threshold: int,
                           p: Past)
  {
    && Added(states, k, me, r, summed, p)
    && p.added <= p.compared <= k && InForce(states[p.compared], me, threshold) && Sum(summed) >= threshold
  }

  ghost predicate Gathered(states: seq<World>, k: nat, me: Key, r: Response, e: Evidence, p: Past) {
    && Compared(states, k, me, r, e.summed, e.threshold, p)
    && p.compared <= p.collected <= k && BucketHolds(states[p.collected], me, p.bucket, e.responses)
  }

  // ---------- invariant ----------

  // How far a goroutine's check has come; None outside checks.
  datatype Stand =
    | NoCheck
    | Beginning(r: Response)
    | Taking(r: Response, bucket: nat)
    | Adding(r: Response, bucket: nat, summed: map<Key, int>)
    | Comparing(r: Response, bucket: nat, summed: map<Key, int>, threshold: int)
    | Collecting(r: Response, e: Evidence)

  function StandOf(th: Thread): Stand {
    match th
    case Stored(r) => Beginning(r)
    case Checking(r, _) => Beginning(r)
    case Holding(r, _, b) => Taking(r, b)
    case Summed(r, _, b, summed) => Adding(r, b, summed)
    case Reached(r, _, b, summed, threshold) => Comparing(r, b, summed, threshold)
    case Collected(r, _, e) => Collecting(r, e)
    case _ => NoCheck
  }

  // The moments explain the stand.
  ghost predicate Explains(states: seq<World>, k: nat, me: Key, p: Past, s: Stand) {
    match s
    case NoCheck => true
    case Beginning(r) => Began(states, k, me, r, p)
    case Taking(r, b) => Took(states, k, me, r, p) && p.bucket == b
    case Adding(r, b, summed) => Added(states, k, me, r, summed, p) && p.bucket == b
    case Comparing(r, b, summed, threshold) => Compared(states, k, me, r, summed, threshold, p) && p.bucket == b
    case Collecting(r, e) => Gathered(states, k, me, r, e, p)
  }

  ghost predicate ThreadPast(states: seq<World>, k: nat, me: Key, th: Thread) {
    exists p :: Explains(states, k, me, p, StandOf(th))
  }

  // The record is what the response that triggered the check claims, with the evidence gathered for it.
  ghost predicate Written(states: seq<World>, k: nat, me: Key, task: TaskId, rec: Record, r: Response, p: Past) {
    r.taskId == task && RecordOf(r, rec.evidence) == Some(rec) && Gathered(states, k, me, r, rec.evidence, p)
  }

  ghost predicate RecordPast(states: seq<World>, k: nat, me: Key, task: TaskId, rec: Record) {
    exists r, p :: Written(states, k, me, task, rec, r, p)
  }

  ghost predicate ThreadsPast(states: seq<World>, k: nat, me: Key, threads: map<nat, Thread>) {
    forall tid :: tid in threads ==> ThreadPast(states, k, me, threads[tid])
  }

  ghost predicate RecordsPast(states: seq<World>, k: nat, me: Key, records: map<TaskId, Record>) {
    forall t :: t in records ==> RecordPast(states, k, me, t, records[t])
  }

  ghost predicate PastInv(states: seq<World>, k: nat, me: Key) {
    && k < |states| && me in states[k].nodes
    && ThreadsPast(states, k, me, states[k].nodes[me].threads)
    && RecordsPast(states, k, me, states[k].nodes[me].records)
  }

  lemma ExplainsLater(states: seq<World>, j: nat, k: nat, me: Key, p: Past, s: Stand)
    requires Explains(states, j, me, p, s) && j <= k < |states|
    ensures Explains(states, k, me, p, s)
  {
  }

  lemma ThreadPastLater(states: seq<World>, j: nat, k: nat, me: Key, th: Thread)
    requires ThreadPast(states, j, me, th) && j <= k < |states|
    ensures ThreadPast(states, k, me, th)
  {
    var p :| Explains(states, j, me, p, StandOf(th));
    ExplainsLater(states, j, k, me, p, StandOf(th));
  }

  lemma RecordPastLater(states: seq<World>, j: nat, k: nat, me: Key, task: TaskId, rec: Record)
    requires RecordPast(states, j, me, task, rec) && j <= k < |states|
    ensures RecordPast(states, k, me, task, rec)
  {
    var r, p :| Written(states, j, me, task, rec, r, p);
    assert Written(states, k, me, task, rec, r, p);
  }

  // ---------- one action ----------

  // What an action of a check makes of its stand, going by the node it acts on.
  function Progress(n: Node, s: Stand, a: Action): Stand {
    match (s, a)
    case (Beginning(r), Snapshot) =>
      if r.taskId in n.tracker.current then Taking(r, n.tracker.current[r.taskId]) else NoCheck
    case (Taking(r, b), AddUp) =>
      if b < |n.tracker.buckets| then Adding(r, b, n.tracker.buckets[b].weights) else NoCheck
    case (Adding(r, b, summed), Compare) =>
      if n.threshold.Some? then Comparing(r, b, summed, n.threshold.value) else NoCheck
    case (Comparing(r, b, summed, threshold), Collect(operators)) =>
      if b < |n.tracker.buckets|
      then Collecting(r, Evidence(n.tracker.buckets[b].responses, operators, summed, threshold)) else NoCheck
    case _ => NoCheck
  }

  // Above the threshold, the moment of the action explains the new stand.
  lemma ProgressExplained(states: seq<World>, k: nat, me: Key, p: Past, s: Stand, a: Action) returns (q: Past)
    requires k + 1 < |states| && me in states[k].nodes && Explains(states, k, me, p, s)
    requires s.Adding? && a.Compare? && states[k].nodes[me].threshold.Some? ==>
               Sum(s.summed) >= states[k].nodes[me].threshold.value
    ensures Explains(states, k + 1, me, q, Progress(states[k].nodes[me], s, a))
  {
    var n := states[k].nodes[me];
    q := match (s, a)
      case (Beginning(r), Snapshot) =>
        p.(taken := k, bucket := if r.taskId in n.tracker.current then n.tracker.current[r.taskId] else 0)
      case (Taking(_, _), AddUp) => p.(added := k)
      case (Adding(_, _, _), Compare) => p.(compared := k)
      case (Comparing(_, _, _, _), Collect(_)) => p.(collected := k)
      case _ => p;
  }

  // Every action of a check either makes that progress or leaves the stand, or leaves the check.
  lemma CheckProgresses(n: Node, th: Thread, a: Action)
    requires InCheck(th)
    ensures var after := AdvanceCheck(n, th, a);
            after.Some? ==>
              var s, t := StandOf(th), StandOf(after.value);
              || t.NoCheck? || t == s
              || (t == Progress(n, s, a)
                  && (s.Adding? && a.Compare? && n.threshold.Some? ==> Sum(s.summed) >= n.threshold.value))
  {
  }

  lemma CheckKeeps(states: seq<World>, k: nat, me: Key, th: Thread, a: Action)
    requires k + 1 < |states| && me in states[k].nodes && InCheck(th) && ThreadPast(states, k, me, th)
    ensures var after := AdvanceCheck(states[k].nodes[me], th, a);
            after.Some? ==> ThreadPast(states, k + 1, me, after.value)
  {
    var n := states[k].nodes[me];
    var after := AdvanceCheck(n, th, a);
    CheckProgresses(n, th, a);
    if after.Some? {
      var p :| Explains(states, k, me, p, StandOf(th));
      if StandOf(after.value) == StandOf(th) {
        ExplainsLater(states, k, k + 1, me, p, StandOf(th));
      } else if StandOf(after.value).NoCheck? {
        assert Explains(states, k + 1, me, p, StandOf(after.value));
      } else {
        var q := ProgressExplained(states, k, me, p, StandOf(th), a);
      }
    }
  }

  // The state after, as far as this matters: the store made by the action is in it.
  predicate Shows(v: World, me: Key, n: Node) { me in v.nodes && v.nodes[me].tracker == n.tracker }

  lemma StoredNow(states: seq<World>, k: nat, me: Key, n: Node, r: Response, key: Key, weight: int)
    requires k < |states| && me in states[k].nodes && states[k].nodes[me].tracker == Store(n.tracker, r, key, weight)
    ensures exists p :: Explains(states, k, me, p, Beginning(r))
  {
    StoreTracks(n.tracker, r, key, weight, r.taskId, key);
    assert Explains(states, k, me, Past(k, key, 0, 0, 0, 0, 0), Beginning(r));
  }

  lemma NoCheckPast(states: seq<World>, k: nat, me: Key, th: Thread)
    requires StandOf(th).NoCheck?
    ensures ThreadPast(states, k, me, th)
  {
    assert Explains(states, k, me, Past(0, me, 0, 0, 0, 0, 0), StandOf(th));
  }

  // Outside checks: a response is stored, or it is published, or nothing about checks changes.
  lemma OtherProgress(w: World, n: Node, me: Key, th: Thread, a: Action)
    requires !InCheck(th)
    ensures var after, e := Advance(w, n, me, th, a), EffectOf(n, me, th, a);
            after.Some? ==>
              || StandOf(after.value).NoCheck? || StandOf(after.value) == StandOf(th)
              || (e.Keep? && StandOf(after.value) == Beginning(e.r))
  {
  }

  lemma OtherKeeps(states: seq<World>, k: nat, me: Key, th: Thread, a: Action)
    requires k + 1 < |states| && me in states[k].nodes && !InCheck(th) && ThreadPast(states, k, me, th)
    requires Shows(states[k + 1], me, Apply(states[k].nodes[me], EffectOf(states[k].nodes[me], me, th, a)))
    ensures var after := Advance(states[k], states[k].nodes[me], me, th, a);
            after.Some? ==> ThreadPast(states, k + 1, me, after.value)
  {
    var n := states[k].nodes[me];
    var after, e := Advance(states[k], n, me, th, a), EffectOf(n, me, th, a);
    OtherProgress(states[k], n, me, th, a);
    if after.Some? {
      if StandOf(after.value).NoCheck? {
        NoCheckPast(states, k + 1, me, after.value);
      } else if StandOf(after.value) == StandOf(th) {
        ThreadPastLater(states, k, k + 1, me, th);
      } else {
        StoredNow(states, k + 1, me, n, e.r, e.key, e.weight);
      }
    }
  }

  lemma AdvancePast(states: seq<World>, k: nat, me: Key, th: Thread, a: Action)
    requires k + 1 < |states| && me in states[k].nodes && ThreadPast(states, k, me, th)
    requires Shows(states[k + 1], me, Apply(states[k].nodes[me], EffectOf(states[k].nodes[me], me, th, a)))
    ensures var after := Advance(states[k], states[k].nodes[me], me, th, a);
            after.Some? ==> ThreadPast(states, k + 1, me, after.value)
  {
    if InCheck(th) {
      CheckKeeps(states, k, me, th, a);
    } else {
      OtherKeeps(states, k, me, th, a);
    }
  }

  // An insertion writes the record of a goroutine that has collected; no action touches other records.
  lemma EffectOnRecords(n: Node, me: Key, th: Thread, a: Action, task: TaskId)
    requires task in Apply(n, EffectOf(n, me, th, a)).records && task !in n.records
    ensures th.Collected? && th.r.taskId == task
            && RecordOf(th.r, th.evidence) == Some(Apply(n, EffectOf(n, me, th, a)).records[task])
            && Apply(n, EffectOf(n, me, th, a)).records[task].evidence == th.evidence
  {
  }

  lemma RecordsPastLater(states: seq<World>, k: nat, me: Key, records: map<TaskId, Record>)
    requires RecordsPast(states, k, me, records) && k + 1 < |states|
    ensures RecordsPast(states, k + 1, me, records)
  {
    forall t | t in records ensures RecordPast(states, k + 1, me, t, records[t]) {
      RecordPastLater(states, k, k + 1, me, t, records[t]);
    }
  }

  lemma ActThreadsPast(states: seq<World>, k: nat, me: Key, n: Node, tid: nat, after: Option<Thread>)
    requires ThreadsPast(states, k, me, n.threads) && k + 1 < |states|
    requires after.Some? ==> ThreadPast(states, k + 1, me, after.value)
    ensures ThreadsPast(states, k + 1, me, if after.Some? then n.threads[tid := after.value] else n.threads - {tid})
  {
    forall t | t in n.threads ensures ThreadPast(states, k + 1, me, n.threads[t]) {
      ThreadPastLater(states, k, k + 1, me, n.threads[t]);
    }
  }

  lemma NewRecordPast(states: seq<World>, k: nat, me: Key, n: Node, th: Thread, a: Action, task: TaskId)
    requires ThreadPast(states, k, me, th) && k + 1 < |states|
    requires task in Apply(n, EffectOf(n, me, th, a)).records && task !in n.records
    ensures RecordPast(states, k + 1, me, task, Apply(n, EffectOf(n, me, th, a)).records[task])
  {
    EffectOnRecords(n, me, th, a, task);
    var p :| Explains(states, k, me, p, StandOf(th));
    ExplainsLater(states, k, k + 1, me, p, StandOf(th));
    assert Written(states, k + 1, me, task, Apply(n, EffectOf(n, me, th, a)).records[task], th.r, p);
  }

  lemma ActRecordsPast(states: seq<World>, k: nat, me: Key, n: Node, th: Thread, a: Action)
    requires RecordsPast(states, k, me, n.records) && ThreadPast(states, k, me, th) && k + 1 < |states|
    ensures RecordsPast(states, k + 1, me, Apply(n, EffectOf(n, me, th, a)).records)
  {
    var records := Apply(n, EffectOf(n, me, th, a)).records;
    RecordsPastLater(states, k, me, n.records);
    forall t | t in records ensures RecordPast(states, k + 1, me, t, records[t]) {
      if t in n.records {
        ApplyKeepsRecords(n, me, th, a, t);
      } else {
        NewRecordPast(states, k, me, n, th, a, t);
      }
    }
  }

  lemma ActPast(states: seq<World>, k: nat, me: Key, tid: nat, a: Action)
    requires k + 1 < |states| && PastInv(states, k, me) && tid in states[k].nodes[me].threads
    requires states[k + 1] == WorldStep(states[k], Local(me, Act(tid, a)))
    ensures PastInv(states, k + 1, me)
  {
    var n := states[k].nodes[me];
    var th := n.threads[tid];
    LocalStep(states[k], me, Act(tid, a));
    assert states[k + 1].nodes[me] == ActStep(states[k], me, n, tid, a);
    assert ThreadPast(states, k, me, th);
    AdvancePast(states, k, me, th, a);
    ActThreadsPast(states, k, me, n, tid, Advance(states[k], n, me, th, a));
    ActRecordsPast(states, k, me, n, th, a);
  }

  lemma LoopThreadsPast(states: seq<World>, k: nat, me: Key, threads: map<nat, Thread>, after: map<nat, Thread>)
    requires ThreadsPast(states, k, me, threads) && OnlyYoung(threads, after) && k + 1 < |states|
    ensures ThreadsPast(states, k + 1, me, after)
  {
    forall t | t in after ensures ThreadPast(states, k + 1, me, after[t]) {
      if t in threads {
        ThreadPastLater(states, k, k + 1, me, threads[t]);
      } else {
        NoCheckPast(states, k + 1, me, after[t]);
      }
    }
  }

  lemma LoopPast(states: seq<World>, k: nat, me: Key)
    requires k + 1 < |states| && PastInv(states, k, me)
    requires me in states[k + 1].nodes && OnlyLoops(states[k].nodes[me], states[k + 1].nodes[me])
    ensures PastInv(states, k + 1, me)
  {
    LoopThreadsPast(states, k, me, states[k].nodes[me].threads, states[k + 1].nodes[me].threads);
    RecordsPastLater(states, k, me, states[k].nodes[me].records);
  }

  lemma OthersStay(w: World, e: Event, me: Key)
    requires me in w.nodes && !(e.Local? && e.me == me)
    ensures me in WorldStep(w, e).nodes && WorldStep(w, e).nodes[me] == w.nodes[me]
  {
  }

  lemma StepPast(states: seq<World>, k: nat, e: Event, me: Key)
    requires k + 1 < |states| && PastInv(states, k, me) && states[k + 1] == WorldStep(states[k], e)
    ensures PastInv(states, k + 1, me)
  {
    var w := states[k];
    if e.Local? && e.me == me {
      LocalStep(w, me, e.step);
      if !e.step.Act? {
        LoopChanges(w, w.nodes[me], me, e.step);
        LoopPast(states, k, me);
      } else if e.step.tid in w.nodes[me].threads {
        ActPast(states, k, me, e.step.tid, e.step.action);
      } else {
        LoopPast(states, k, me);
      }
    } else {
      OthersStay(w, e, me);
      LoopPast(states, k, me);
    }
  }

  lemma {:induction false} RunKeepsPast(states: seq<World>, events: seq<Event>, k: nat, me: Key)
    requires Run(states, events) && k <= |events| && me in states[0].nodes
    ensures PastInv(states, k, me)
  {
    if k > 0 {
      RunKeepsPast(states, events, k - 1, me);
      StepPast(states, k - 1, events[k - 1], me);
    }
  }

  // ---------- what stays along a run ----------

  lemma StepKeepsBucket(w: World, e: Event, me: Key, b: nat)
    requires me in w.nodes && b < |w.nodes[me].tracker.buckets|
    ensures var v := WorldStep(w, e);
            && w.signed <= v.signed && me in v.nodes && b < |v.nodes[me].tracker.buckets|
            && v.nodes[me].tracker.buckets[b].task == w.nodes[me].tracker.buckets[b].task
  {
    if e.Local? && e.me == me {
      var n := w.nodes[me];
      LocalStep(w, me, e.step);
      if !e.step.Act? {
        LoopChanges(w, n, me, e.step);
      } else if e.step.tid in n.threads {
        ApplyKeepsBucket(n, EffectOf(n, me, n.threads[e.step.tid], e.step.action), b);
      }
    }
  }

  lemma ApplyKeepsBucket(n: Node, e: Effect, b: nat)
    requires b < |n.tracker.buckets|
    ensures b < |Apply(n, e).tracker.buckets| && Apply(n, e).tracker.buckets[b].task == n.tracker.buckets[b].task
  {
    if e.Keep? {
      StoreGrows(n.tracker, e.r, e.key, e.weight);
    }
  }

  // Buckets stay those of their task, and signatures are never forgotten.
  lemma {:induction false} BucketsStay(states: seq<World>, events: seq<Event>, j: nat, k: nat, me: Key, b: nat)
    requires Run(states, events) && j <= k <= |events| && me in states[j].nodes
    requires b < |states[j].nodes[me].tracker.buckets|
    ensures states[j].signed <= states[k].signed
    ensures me in states[k].nodes && b < |states[k].nodes[me].tracker.buckets|
    ensures states[k].nodes[me].tracker.buckets[b].task == states[j].nodes[me].tracker.buckets[b].task
    decreases k
  {
    if j < k {
      BucketsStay(states, events, j, k - 1, me, b);
      StepKeepsBucket(states[k - 1], events[k - 1], me, b);
    }
  }

  // ---------- main results ----------

  lemma HowItWasWritten(states: seq<World>, events: seq<Event>, k: nat, me: Key, task: TaskId)
    returns (r: Response, p: Past)
    requires Run(states, events) && k <= |events| && me in states[k].nodes && task in states[k].nodes[me].records
    ensures Written(states, k, me, task, states[k].nodes[me].records[task], r, p)
  {
    Safe(states, events, k);
    RunKeepsPast(states, events, k, me);
    assert RecordPast(states, k, me, task, states[k].nodes[me].records[task]);
    r, p :| Written(states, k, me, task, states[k].nodes[me].records[task], r, p);
  }

  // The moment at which a bucket of the tracker is looked at.
  predicate TaskBucket(w: World, me: Key, task: TaskId, b: nat) {
    me in w.nodes && b < |w.nodes[me].tracker.buckets| && w.nodes[me].tracker.buckets[b].task == task
  }

  // A record is a certificate. Its signers are exactly the responders that its task's bucket held when they were
  // collected, each once, in strictly ascending order; signature i and address i are those of signer i; each signer's
  // response is for the task and verifies. The same bucket, tracked for the task when the check took it, stored the
  // weights that were added up before that, and they reach the threshold then in force.
  lemma CertificateSound(states: seq<World>, events: seq<Event>, k: nat, me: Key, task: TaskId)
    returns (r: Response, p: Past)
    requires Run(states, events) && k <= |events| && me in states[k].nodes && task in states[k].nodes[me].records
    ensures p.stored <= p.taken <= p.added <= p.compared <= p.collected <= k
    ensures CurrentBucket(states[p.taken], me, task, p.bucket)
    ensures TaskBucket(states[p.added], me, task, p.bucket) && TaskBucket(states[p.collected], me, task, p.bucket)
    ensures me in states[p.compared].nodes && states[p.compared].nodes[me].threshold.Some?
    ensures var weights := states[p.added].nodes[me].tracker.buckets[p.bucket].weights;
            Sum(weights) >= states[p.compared].nodes[me].threshold.value
    ensures var rec := states[k].nodes[me].records[task];
            var responses := states[p.collected].nodes[me].tracker.buckets[p.bucket].responses;
            var weights := states[p.added].nodes[me].tracker.buckets[p.bucket].weights;
            var signers := Sorted(responses.Keys);
            && Ascending(signers) && Lists(signers, responses.Keys) && weights.Keys <= responses.Keys
            && |rec.signatures| == |rec.addresses| == |signers|
            && forall i :: 0 <= i < |signers| ==>
                 && signers[i] in responses && signers[i] in rec.evidence.operators
                 && rec.signatures[i] == responses[signers[i]].signature
                 && rec.addresses[i] == rec.evidence.operators[signers[i]]
                 && responses[signers[i]].taskId == task
                 && Verifies(states[k].signed, responses[signers[i]], signers[i])
    ensures var signers := Sorted(states[p.collected].nodes[me].tracker.buckets[p.bucket].responses.Keys);
            forall i, j :: 0 <= i < j < |signers| ==> Precedes(signers[i], signers[j])
    ensures StoredAs(states[p.stored], me, r, p.key)
            && RecordOf(r, states[k].nodes[me].records[task].evidence) == Some(states[k].nodes[me].records[task])
  {
    r, p := HowItWasWritten(states, events, k, me, task);
    Safe(states, events, k);
    CertificateForm(states[k].signed, task, states[k].nodes[me].records[task]);
    BucketsStay(states, events, p.taken, p.added, me, p.bucket);
    BucketsStay(states, events, p.taken, p.collected, me, p.bucket);
    AscendingMeans(Sorted(states[p.collected].nodes[me].tracker.buckets[p.bucket].responses.Keys));
  }

  predicate HoldsOn(chains: Chains, p: Params) { p.value >= 0 && StateAt(chains, p) == Some(p.value as nat) }

  // Without any assumption on traffic: a record says what the response that triggered its check claims, which was
  // tracked under a key that signed it.
  lemma RecordSaysWhatTriggerClaims(states: seq<World>, events: seq<Event>, k: nat, me: Key, task: TaskId)
    returns (r: Response, p: Past)
    requires Run(states, events) && k <= |events| && me in states[k].nodes && task in states[k].nodes[me].records
    ensures p.stored <= k && StoredAs(states[p.stored], me, r, p.key) && r.taskId == task
    ensures ParamsOf(r) == Some(RecordParams(states[k].nodes[me].records[task])) && Verifies(states[k].signed, r, p.key)
    ensures var rec := states[k].nodes[me].records[task];
            && rec.epoch == r.epoch && rec.target == r.target && rec.chainId == r.chainId && rec.block == r.block
            && StringToBigInt(r.key) == Some(rec.key) && StringToBigInt(r.value) == Some(rec.value)
  {
    r, p := HowItWasWritten(states, events, k, me, task);
    var t := states[p.stored].nodes[me].tracker;
    Safe(states, events, p.stored);
    assert BucketInv(states[p.stored].signed, t.buckets[t.current[task]]);
    BucketsStay(states, events, p.stored, k, me, t.current[task]);
  }
}
