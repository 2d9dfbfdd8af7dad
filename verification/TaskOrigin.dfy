// Where tracked responses and their weights come from, over runs: an active operator's message of the epoch then
// current, or this node's own answer (pkg/operator/task/response.go, pkg/operator/task/task.go).
module TaskOrigin {
  import opened Basics
  import opened Decimal
  import opened TaskModel
  import opened TaskMachine
  import opened TaskSafety

  // ---------- origins ----------

  // Event i brought the response to the node, from an active operator in the epoch then current.
  predicate Arrived(states: seq<World>, events: seq<Event>, i: nat, me: Key, r: Response, key: Key, numeric: Numeric) {
    && i < |states| && i < |events| && me in states[i].nodes
    && events[i].Local? && events[i].me == me && events[i].step.Deliver?
    && ConvertProtoToResponse(events[i].step.m) == r && r.epoch == states[i].nodes[me].epoch
    && events[i].step.operator == Some(Sender(true, key, numeric))
  }

  // Event i stored the node's own response.
  predicate StoredOwn(states: seq<World>, events: seq<Event>, i: nat, me: Key, r: Response, weight: int) {
    && i < |states| && i < |events| && me in states[i].nodes
    && events[i].Local? && events[i].me == me && events[i].step.Act? && events[i].step.action.StoreOwn?
    && events[i].step.tid in states[i].nodes[me].threads
    && states[i].nodes[me].threads[events[i].step.tid] == Signed(r)
    && events[i].step.action.numeric.Some? && NumericToBigInt(events[i].step.action.numeric.value) == Ok(weight)
  }

  ghost predicate Came(states: seq<World>, events: seq<Event>, k: nat, me: Key, r: Response, key: Key,
                       numeric: Numeric)
  {
    exists i: nat :: i < k && Arrived(states, events, i, me, r, key, numeric)
  }

  ghost predicate CameWith(states: seq<World>, events: seq<Event>, k: nat, me: Key, r: Response, key: Key,
                           weight: int)
  {
    exists numeric :: Came(states, events, k, me, r, key, numeric) && NumericToBigInt(numeric) == Ok(weight)
  }

  ghost predicate EntryOrigin(states: seq<World>, events: seq<Event>, k: nat, me: Key, r: Response, key: Key,
                              weight: int)
  {
    || CameWith(states, events, k, me, r, key, weight)
    || (key == me && exists i: nat :: i < k && StoredOwn(states, events, i, me, r, weight))
  }

  // ---------- invariant ----------

  ghost predicate ThreadOrigin(states: seq<World>, events: seq<Event>, k: nat, me: Key, th: Thread) {
    match th
    case Received(r, key, numeric) => Came(states, events, k, me, r, key, numeric)
    case Untracked(r, key, numeric) => Came(states, events, k, me, r, key, numeric)
    case Unrecorded(r, key, numeric) => Came(states, events, k, me, r, key, numeric)
    case Verified(r, key, weight) => CameWith(states, events, k, me, r, key, weight)
    case _ => true
  }

  ghost predicate ThreadsOrigin(states: seq<World>, events: seq<Event>, k: nat, me: Key, threads: map<nat, Thread>) {
    forall tid :: tid in threads ==> ThreadOrigin(states, events, k, me, threads[tid])
  }

  ghost predicate BucketOrigin(states: seq<World>, events: seq<Event>, k: nat, me: Key, b: Bucket) {
    forall key :: key in b.responses ==>
      key in b.weights && EntryOrigin(states, events, k, me, b.responses[key], key, b.weights[key])
  }

  ghost predicate TrackerOrigin(states: seq<World>, events: seq<Event>, k: nat, me: Key, t: Tracker) {
    forall a :: 0 <= a < |t.buckets| ==> BucketOrigin(states, events, k, me, t.buckets[a])
  }

  ghost predicate OriginInv(states: seq<World>, events: seq<Event>, k: nat, me: Key) {
    && k < |states| && me in states[k].nodes
    && ThreadsOrigin(states, events, k, me, states[k].nodes[me].threads)
    && TrackerOrigin(states, events, k, me, states[k].nodes[me].tracker)
  }

  // ---------- later moments ----------

  lemma ThreadOriginLater(states: seq<World>, events: seq<Event>, k: nat, me: Key, th: Thread)
    requires ThreadOrigin(states, events, k, me, th)
    ensures ThreadOrigin(states, events, k + 1, me, th)
  {
    match th
    case Received(r, key, numeric) => CameLater(states, events, k, me, r, key, numeric);
    case Untracked(r, key, numeric) => CameLater(states, events, k, me, r, key, numeric);
    case Unrecorded(r, key, numeric) => CameLater(states, events, k, me, r, key, numeric);
    case Verified(r, key, weight) => CameWithLater(states, events, k, me, r, key, weight);
    case _ =>
  }

  lemma CameLater(states: seq<World>, events: seq<Event>, k: nat, me: Key, r: Response, key: Key, numeric: Numeric)
    requires Came(states, events, k, me, r, key, numeric)
    ensures Came(states, events, k + 1, me, r, key, numeric)
  {
  }

  lemma CameWithLater(states: seq<World>, events: seq<Event>, k: nat, me: Key, r: Response, key: Key, weight: int)
    requires CameWith(states, events, k, me, r, key, weight)
    ensures CameWith(states, events, k + 1, me, r, key, weight)
  {
    var numeric :| Came(states, events, k, me, r, key, numeric) && NumericToBigInt(numeric) == Ok(weight);
    CameLater(states, events, k, me, r, key, numeric);
  }

  lemma EntryOriginLater(states: seq<World>, events: seq<Event>, k: nat, me: Key, r: Response, key: Key, weight: int)
    requires EntryOrigin(states, events, k, me, r, key, weight)
    ensures EntryOrigin(states, events, k + 1, me, r, key, weight)
  {
    if CameWith(states, events, k, me, r, key, weight) {
      CameWithLater(states, events, k, me, r, key, weight);
    }
  }

  lemma BucketOriginLater(states: seq<World>, events: seq<Event>, k: nat, me: Key, b: Bucket)
    requires BucketOrigin(states, events, k, me, b)
    ensures BucketOrigin(states, events, k + 1, me, b)
  {
    forall key | key in b.responses ensures EntryOrigin(states, events, k + 1, me, b.responses[key], key,
                                                        b.weights[key]) {
      EntryOriginLater(states, events, k, me, b.responses[key], key, b.weights[key]);
    }
  }

  lemma TrackerOriginLater(states: seq<World>, events: seq<Event>, k: nat, me: Key, t: Tracker)
    requires TrackerOrigin(states, events, k, me, t)
    ensures TrackerOrigin(states, events, k + 1, me, t)
  {
    forall a | 0 <= a < |t.buckets| ensures BucketOrigin(states, events, k + 1, me, t.buckets[a]) {
      BucketOriginLater(states, events, k, me, t.buckets[a]);
    }
  }

  lemma ThreadsOriginLater(states: seq<World>, events: seq<Event>, k: nat, me: Key, threads: map<nat, Thread>)
    requires ThreadsOrigin(states, events, k, me, threads)
    ensures ThreadsOrigin(states, events, k + 1, me, threads)
  {
    forall tid | tid in threads ensures ThreadOrigin(states, events, k + 1, me, threads[tid]) {
      ThreadOriginLater(states, events, k, me, threads[tid]);
    }
  }

  // ---------- actions ----------

  // A goroutine keeps its response and sender on the way through the gates; nothing else becomes one.
  lemma AdvanceOrigin(states: seq<World>, events: seq<Event>, k: nat, me: Key, w: World, n: Node, th: Thread, a: Action)
    requires ThreadOrigin(states, events, k, me, th)
    ensures var after := Advance(w, n, me, th, a);
            after.Some? ==> ThreadOrigin(states, events, k, me, after.value)
  {
    if Receiving(th) {
      ReceivingOrigin(states, events, k, me, w, n, th, a);
    } else {
      NoneReceives(w, n, me, th, a);
    }
  }

  lemma NoneReceives(w: World, n: Node, me: Key, th: Thread, a: Action)
    requires !Receiving(th)
    ensures var after := Advance(w, n, me, th, a);
            after.Some? ==> !Receiving(after.value)
  {
  }

  lemma ReceivingOrigin(states: seq<World>, events: seq<Event>, k: nat, me: Key, w: World, n: Node, th: Thread,
                        a: Action)
    requires Receiving(th) && ThreadOrigin(states, events, k, me, th)
    ensures var after := AdvanceReceiving(w.signed, n, th, a);
            after.Some? ==> ThreadOrigin(states, events, k, me, after.value)
  {
  }

  // What a store files has an origin.
  lemma KeepOrigin(states: seq<World>, events: seq<Event>, k: nat, me: Key, tid: nat, a: Action)
    requires k < |events| && k < |states| && me in states[k].nodes && events[k] == Local(me, Act(tid, a))
    requires tid in states[k].nodes[me].threads
    requires ThreadOrigin(states, events, k, me, states[k].nodes[me].threads[tid])
    ensures var e := EffectOf(states[k].nodes[me], me, states[k].nodes[me].threads[tid], a);
            e.Keep? ==> EntryOrigin(states, events, k + 1, me, e.r, e.key, e.weight)
  {
    var th := states[k].nodes[me].threads[tid];
    var e := EffectOf(states[k].nodes[me], me, th, a);
    if e.Keep? {
      if e.own {
        assert StoredOwn(states, events, k, me, e.r, e.weight);
      } else {
        CameWithLater(states, events, k, me, e.r, e.key, e.weight);
      }
    }
  }

  lemma StoreOrigin(states: seq<World>, events: seq<Event>, k: nat, me: Key, t: Tracker, r: Response, key: Key,
                    weight: int)
    requires TrackerOrigin(states, events, k, me, t) && EntryOrigin(states, events, k, me, r, key, weight)
    ensures TrackerOrigin(states, events, k, me, Store(t, r, key, weight))
  {
    var u := Store(t, r, key, weight);
    forall a | 0 <= a < |u.buckets| ensures BucketOrigin(states, events, k, me, u.buckets[a]) {
      assert a < |t.buckets| ==> BucketOrigin(states, events, k, me, t.buckets[a]);
    }
  }

  lemma ActOrigin(states: seq<World>, events: seq<Event>, k: nat, me: Key, tid: nat, a: Action)
    requires k + 1 < |states| && k < |events| && OriginInv(states, events, k, me)
    requires events[k] == Local(me, Act(tid, a)) && states[k + 1] == WorldStep(states[k], events[k])
    requires tid in states[k].nodes[me].threads
    ensures OriginInv(states, events, k + 1, me)
  {
    var n := states[k].nodes[me];
    var th := n.threads[tid];
    var after := Advance(states[k], n, me, th, a);
    AppliedOrigin(states, events, k, me, tid, a);
    AdvanceOrigin(states, events, k, me, states[k], n, th, a);
    ReplacedOrigin(states, events, k, me, n.threads, tid, after);
    LocalStep(states[k], me, events[k].step);
  }

  lemma AppliedOrigin(states: seq<World>, events: seq<Event>, k: nat, me: Key, tid: nat, a: Action)
    requires k < |states| && k < |events| && OriginInv(states, events, k, me) && events[k] == Local(me, Act(tid, a))
    requires tid in states[k].nodes[me].threads
    ensures var n := states[k].nodes[me];
            TrackerOrigin(states, events, k + 1, me, Apply(n, EffectOf(n, me, n.threads[tid], a)).tracker)
  {
    var n := states[k].nodes[me];
    var e := EffectOf(n, me, n.threads[tid], a);
    KeepOrigin(states, events, k, me, tid, a);
    TrackerOriginLater(states, events, k, me, n.tracker);
    ApplyOrigin(states, events, k + 1, me, n, e);
  }

  lemma ApplyOrigin(states: seq<World>, events: seq<Event>, k: nat, me: Key, n: Node, e: Effect)
    requires TrackerOrigin(states, events, k, me, n.tracker)
    requires e.Keep? ==> EntryOrigin(states, events, k, me, e.r, e.key, e.weight)
    ensures TrackerOrigin(states, events, k, me, Apply(n, e).tracker)
  {
    if e.Keep? {
      StoreOrigin(states, events, k, me, n.tracker, e.r, e.key, e.weight);
    }
  }

  lemma ReplacedOrigin(states: seq<World>, events: seq<Event>, k: nat, me: Key, threads: map<nat, Thread>, tid: nat,
                       after: Option<Thread>)
    requires ThreadsOrigin(states, events, k, me, threads)
    requires after.Some? ==> ThreadOrigin(states, events, k, me, after.value)
    ensures ThreadsOrigin(states, events, k + 1, me,
                          if after.Some? then threads[tid := after.value] else threads - {tid})
  {
    ThreadsOriginLater(states, events, k, me, threads);
    if after.Some? {
      ThreadOriginLater(states, events, k, me, after.value);
    }
  }

  // ---------- the other steps ----------

  lemma ArrivalOrigin(states: seq<World>, events: seq<Event>, k: nat, me: Key)
    requires k < |states| && k < |events| && me in states[k].nodes && events[k].Local? && events[k].me == me
    requires IsArrival(events[k].step)
    ensures var n, m := states[k].nodes[me], Arrive(states[k], states[k].nodes[me], events[k].step);
            forall tid :: tid in m.threads && tid !in n.threads ==>
              ThreadOrigin(states, events, k + 1, me, m.threads[tid])
  {
    var n, step := states[k].nodes[me], events[k].step;
    if step.Deliver? && step.operator.Some? && step.operator.value.active && step.m.msgEpoch == n.epoch {
      var r := ConvertProtoToResponse(step.m);
      assert Arrived(states, events, k, me, r, step.operator.value.key, step.operator.value.weight);
    }
  }

  // Loops start goroutines that answer requests only.
  lemma PollStartsRequests(w: World, n: Node, step: Step)
    requires IsPoll(step)
    ensures forall tid :: tid in Poll(w, n, step).threads && tid !in n.threads ==>
              Poll(w, n, step).threads[tid].Requested?
  {
  }

  lemma LoopOrigin(states: seq<World>, events: seq<Event>, k: nat, me: Key)
    requires k + 1 < |states| && k < |events| && OriginInv(states, events, k, me)
    requires events[k].Local? && events[k].me == me && !events[k].step.Act?
    requires states[k + 1] == WorldStep(states[k], events[k])
    ensures OriginInv(states, events, k + 1, me)
  {
    var n, step := states[k].nodes[me], events[k].step;
    var m := NodeStep(states[k], me, n, step);
    LocalStep(states[k], me, step);
    LoopChanges(states[k], n, me, step);
    TrackerOriginLater(states, events, k, me, n.tracker);
    ThreadsOriginLater(states, events, k, me, n.threads);
    if IsArrival(step) {
      ArrivalOrigin(states, events, k, me);
    } else if IsPoll(step) {
      PollStartsRequests(states[k], n, step);
    } else {
      UpkeepStartsNothing(n, step);
    }
    YoungOrigin(states, events, k + 1, me, n.threads, m.threads);
  }

  lemma YoungOrigin(states: seq<World>, events: seq<Event>, k: nat, me: Key, threads: map<nat, Thread>,
                    after: map<nat, Thread>)
    requires ThreadsOrigin(states, events, k, me, threads) && OnlyYoung(threads, after)
    requires forall tid :: tid in after && tid !in threads ==> ThreadOrigin(states, events, k, me, after[tid])
    ensures ThreadsOrigin(states, events, k, me, after)
  {
  }

  // Upkeep starts nothing.
  lemma UpkeepStartsNothing(n: Node, step: Step)
    requires !step.Act? && !IsArrival(step) && !IsPoll(step)
    ensures Upkeep(n, step).threads == n.threads
  {
  }

  lemma StepOrigin(states: seq<World>, events: seq<Event>, k: nat, me: Key)
    requires k + 1 < |states| && k < |events| && OriginInv(states, events, k, me)
    requires states[k + 1] == WorldStep(states[k], events[k])
    ensures OriginInv(states, events, k + 1, me)
  {
    var e := events[k];
    if e.Local? && e.me == me && !e.step.Act? {
      LoopOrigin(states, events, k, me);
    } else if e.Local? && e.me == me && e.step.tid in states[k].nodes[me].threads {
      ActOrigin(states, events, k, me, e.step.tid, e.step.action);
    } else {
      assert states[k + 1].nodes[me] == states[k].nodes[me];
      TrackerOriginLater(states, events, k, me, states[k].nodes[me].tracker);
      ThreadsOriginLater(states, events, k, me, states[k].nodes[me].threads);
    }
  }

  lemma {:induction false} RunKeepsOrigins(states: seq<World>, events: seq<Event>, k: nat, me: Key)
    requires Run(states, events) && k <= |events| && me in states[0].nodes
    ensures OriginInv(states, events, k, me)
  {
    if k > 0 {
      RunKeepsOrigins(states, events, k - 1, me);
      StepOrigin(states, events, k - 1, me);
    }
  }

  // ---------- main result ----------

  // The two origins, field by field.
  lemma OriginMeans(states: seq<World>, events: seq<Event>, k: nat, me: Key, r: Response, key: Key, weight: int)
    returns (i: nat, own: bool)
    requires EntryOrigin(states, events, k, me, r, key, weight)
    ensures i < k && i < |states| && i < |events| && me in states[i].nodes && events[i].Local? && events[i].me == me
    ensures var step, n := events[i].step, states[i].nodes[me];
            if own then
              && key == me && step.Act? && step.tid in n.threads && n.threads[step.tid] == Signed(r)
              && step.action.StoreOwn? && step.action.numeric.Some?
              && NumericToBigInt(step.action.numeric.value) == Ok(weight)
            else
              && step.Deliver? && step.operator.Some? && step.operator.value.active && step.operator.value.key == key
              && NumericToBigInt(step.operator.value.weight) == Ok(weight)
              && step.m.msgEpoch == n.epoch && r.epoch == n.epoch
              && step.m.taskId == r.taskId && step.m.msgSignature == r.signature
              && step.m.msgKey == r.key && step.m.msgValue == r.value && step.m.blockNumber == r.block
              && step.m.msgChainId == r.chainId && step.m.targetAddress == r.target
  {
    if CameWith(states, events, k, me, r, key, weight) {
      var numeric :| Came(states, events, k, me, r, key, numeric) && NumericToBigInt(numeric) == Ok(weight);
      own := false;
      i :| i < k && Arrived(states, events, i, me, r, key, numeric);
    } else {
      own := true;
      i :| i < k && StoredOwn(states, events, i, me, r, weight);
    }
  }

  // Every tracked response with its weight, at any moment and also in maps that a cleanup has dropped: either it came
  // in a message of the epoch then current, from an operator whose row was active and held that key and weight; or it
  // is this node's own answer, stored with the weight of its own row.
  lemma EntriesAreAdmitted(states: seq<World>, events: seq<Event>, k: nat, me: Key, a: nat, key: Key)
    returns (i: nat, own: bool)
    requires Run(states, events) && k <= |events| && me in states[k].nodes
    requires a < |states[k].nodes[me].tracker.buckets| && key in states[k].nodes[me].tracker.buckets[a].responses
    ensures i < k && me in states[i].nodes && events[i].Local? && events[i].me == me
    ensures key in states[k].nodes[me].tracker.buckets[a].weights
    ensures var weight := states[k].nodes[me].tracker.buckets[a].weights[key];
            var r, step, n := states[k].nodes[me].tracker.buckets[a].responses[key], events[i].step,
              states[i].nodes[me];
            if own then
              && key == me && step.Act? && step.tid in n.threads && n.threads[step.tid] == Signed(r)
              && step.action.StoreOwn? && step.action.numeric.Some?
              && NumericToBigInt(step.action.numeric.value) == Ok(weight)
            else
              && step.Deliver? && step.operator.Some? && step.operator.value.active && step.operator.value.key == key
              && NumericToBigInt(step.operator.value.weight) == Ok(weight)
              && step.m.msgEpoch == n.epoch && r.epoch == n.epoch
              && step.m.taskId == r.taskId && step.m.msgSignature == r.signature
              && step.m.msgKey == r.key && step.m.msgValue == r.value && step.m.blockNumber == r.block
              && step.m.msgChainId == r.chainId && step.m.targetAddress == r.target
  {
    Safe(states, events, k);
    RunKeepsOrigins(states, events, k, me);
    var b := states[k].nodes[me].tracker.buckets[a];
    assert BucketOrigin(states, events, k, me, b);
    i, own := OriginMeans(states, events, k, me, b.responses[key], key, b.weights[key]);
  }
}
