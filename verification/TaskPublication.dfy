// How often a node publishes its response to one task (pkg/operator/task/task.go).
module TaskPublication {
  import opened Basics
  import opened Decimal
  import opened TaskModel
  import opened TaskMachine

  // Past the check that this node has not answered, and not yet stored.
  predicate InProgress(th: Thread, task: TaskId) {
    (th.Processing? && th.q.taskId == task) || (th.Signed? && th.r.taskId == task)
  }

  // Stored and about to be published.
  predicate Unpublished(th: Thread, task: TaskId) { th.Stored? && th.r.taskId == task }

  function UnpublishedThreads(threads: map<nat, Thread>, task: TaskId): set<nat> {
    set tid | tid in threads && Unpublished(threads[tid], task)
  }

  // Calls of ProcessTask for a task do not overlap.
  predicate NoOverlap(n: Node, task: TaskId) {
    forall a, b :: a in n.threads && b in n.threads && a != b ==>
      !(InProgress(n.threads[a], task) && InProgress(n.threads[b], task))
  }

  predicate Busy(n: Node, task: TaskId) { exists a :: a in n.threads && InProgress(n.threads[a], task) }

  // ---------- the steps that count ----------

  // The step publishes this node's response to the task.
  predicate Publishes(n: Node, step: Step, task: TaskId) {
    step.Act? && step.action == Publish(true) && step.tid in n.threads && Unpublished(n.threads[step.tid], task)
  }

  // The step stores this node's response to the task.
  predicate StoresOwn(n: Node, step: Step, task: TaskId) {
    && step.Act? && step.action.StoreOwn? && step.action.numeric.Some?
    && NumericToBigInt(step.action.numeric.value).Ok?
    && step.tid in n.threads && n.threads[step.tid].Signed? && n.threads[step.tid].r.taskId == task
  }

  // The step drops what is tracked for the task.
  predicate CleansUp(n: Node, step: Step, task: TaskId) {
    || step.CleanupAllTasks?
    || (step.CleanupTask? && n.timeouts.todo != [] && n.timeouts.stage == Cleaning && n.timeouts.todo[0].0 == task)
  }

  // After it nothing of the task is tracked, and what is tracked of others stays unless everything goes.
  lemma CleanupUntracks(w: World, me: Key, n: Node, step: Step, task: TaskId, t: TaskId, key: Key)
    requires CleansUp(n, step, task)
    ensures var m := NodeStep(w, me, n, step);
            Filed(m.tracker, t, key) == if step.CleanupAllTasks? || t == task then None else Filed(n.tracker, t, key)
  {
  }

  function One(b: bool): nat { if b then 1 else 0 }

  // How often node me has taken such steps among the first k events.
  function Publications(states: seq<World>, events: seq<Event>, k: nat, me: Key, task: TaskId): nat
    requires k <= |events| && |states| == |events| + 1
  {
    if k == 0 then 0
    else
      var w, e := states[k - 1], events[k - 1];
      Publications(states, events, k - 1, me, task)
      + One(me in w.nodes && e.Local? && e.me == me && Publishes(w.nodes[me], e.step, task))
  }

  function OwnStores(states: seq<World>, events: seq<Event>, k: nat, me: Key, task: TaskId): nat
    requires k <= |events| && |states| == |events| + 1
  {
    if k == 0 then 0
    else
      var w, e := states[k - 1], events[k - 1];
      OwnStores(states, events, k - 1, me, task)
      + One(me in w.nodes && e.Local? && e.me == me && StoresOwn(w.nodes[me], e.step, task))
  }

  function Cleanups(states: seq<World>, events: seq<Event>, k: nat, me: Key, task: TaskId): nat
    requires k <= |events| && |states| == |events| + 1
  {
    if k == 0 then 0
    else
      var w, e := states[k - 1], events[k - 1];
      Cleanups(states, events, k - 1, me, task)
      + One(me in w.nodes && e.Local? && e.me == me && CleansUp(w.nodes[me], e.step, task))
  }

  // An own store needs an untracked task, and only a cleanup untracks one.
  predicate StoresInv(n: Node, me: Key, task: TaskId, stores: nat, cleanups: nat) {
    stores <= cleanups + One(!Busy(n, task) && Tracked(n.tracker, task, me))
  }

  predicate SendsInv(n: Node, task: TaskId, sends: nat, stores: nat) {
    sends + |UnpublishedThreads(n.threads, task)| <= stores
  }

  // ---------- goroutine actions ----------

  // How one action moves a goroutine relative to publication.
  predicate Shaped(n: Node, me: Key, th: Thread, after: Option<Thread>, e: Effect, task: TaskId) {
    && (after.Some? && InProgress(after.value, task) && !InProgress(th, task) ==>
          th.Requested? && !Tracked(n.tracker, task, me) && e == Quiet)
    && (e.Keep? && e.own && e.r.taskId == task ==>
          InProgress(th, task) && e.key == me && after.Some? && Unpublished(after.value, task))
    && (after.Some? && Unpublished(after.value, task) && !Unpublished(th, task) ==>
          e.Keep? && e.own && e.r.taskId == task)
    && (e.Send? && e.r.taskId == task ==>
          Unpublished(th, task) && !(after.Some? && Unpublished(after.value, task)))
  }

  lemma ReceivingShape(w: World, n: Node, me: Key, th: Thread, a: Action, task: TaskId)
    requires Receiving(th)
    ensures Shaped(n, me, th, AdvanceReceiving(w.signed, n, th, a), EffectOf(n, me, th, a), task)
  {
  }

  lemma CheckShape(n: Node, me: Key, th: Thread, a: Action, task: TaskId)
    requires InCheck(th)
    ensures Shaped(n, me, th, AdvanceCheck(n, th, a), EffectOf(n, me, th, a), task)
  {
  }

  lemma OwnShape(w: World, n: Node, me: Key, th: Thread, a: Action, task: TaskId)
    requires !Receiving(th) && !InCheck(th)
    ensures Shaped(n, me, th, AdvanceOwn(w, n, me, th, a), EffectOf(n, me, th, a), task)
  {
  }

  lemma AdvanceShape(w: World, n: Node, me: Key, th: Thread, a: Action, task: TaskId)
    ensures Shaped(n, me, th, Advance(w, n, me, th, a), EffectOf(n, me, th, a), task)
  {
    if Receiving(th) {
      ReceivingShape(w, n, me, th, a, task);
    } else if InCheck(th) {
      CheckShape(n, me, th, a, task);
    } else {
      OwnShape(w, n, me, th, a, task);
    }
  }

  lemma Without(s: set<nat>, tid: nat)
    ensures |s| == |s - {tid}| + if tid in s then 1 else 0
  {
    if tid !in s {
      assert s - {tid} == s;
    }
  }

  ghost predicate SameButOne(threads: map<nat, Thread>, more: map<nat, Thread>, tid: nat) {
    forall k :: k != tid ==> (k in threads <==> k in more) && (k in threads ==> threads[k] == more[k])
  }

  lemma OthersUnpublished(threads: map<nat, Thread>, more: map<nat, Thread>, tid: nat, task: TaskId)
    requires SameButOne(threads, more, tid)
    ensures UnpublishedThreads(threads, task) - {tid} == UnpublishedThreads(more, task) - {tid}
  {
    var s, t := UnpublishedThreads(threads, task) - {tid}, UnpublishedThreads(more, task) - {tid};
    forall k ensures k in s <==> k in t {
      if k != tid {
        assert k in threads <==> k in more;
      }
    }
  }

  lemma UnpublishedChanges(threads: map<nat, Thread>, more: map<nat, Thread>, tid: nat, task: TaskId)
    requires SameButOne(threads, more, tid)
    ensures |UnpublishedThreads(more, task)| + (if tid in threads && Unpublished(threads[tid], task) then 1 else 0)
         == |UnpublishedThreads(threads, task)| + (if tid in more && Unpublished(more[tid], task) then 1 else 0)
  {
    OthersUnpublished(threads, more, tid, task);
    Without(UnpublishedThreads(threads, task), tid);
    Without(UnpublishedThreads(more, task), tid);
  }

  // What an effect does is what the step counts as.
  lemma ActCounts(n: Node, me: Key, tid: nat, a: Action, task: TaskId)
    requires tid in n.threads
    ensures var e := EffectOf(n, me, n.threads[tid], a);
            && (StoresOwn(n, Act(tid, a), task) <==> e.Keep? && e.own && e.r.taskId == task)
            && (Publishes(n, Act(tid, a), task) <==> e.Send? && e.r.taskId == task)
  {
  }

  lemma ActKeepsSends(w: World, n: Node, me: Key, tid: nat, a: Action, task: TaskId, sends: nat, stores: nat)
    requires tid in n.threads && SendsInv(n, task, sends, stores)
    ensures SendsInv(ActStep(w, me, n, tid, a), task, sends + One(Publishes(n, Act(tid, a), task)),
                     stores + One(StoresOwn(n, Act(tid, a), task)))
  {
    var m := ActStep(w, me, n, tid, a);
    var after := Advance(w, n, me, n.threads[tid], a);
    var moved := if after.Some? then n.threads[tid := after.value] else n.threads - {tid};
    assert m.threads == moved;
    AdvanceShape(w, n, me, n.threads[tid], a, task);
    ActCounts(n, me, tid, a, task);
    UnpublishedChanges(n.threads, moved, tid, task);
  }

  lemma ApplyTracks(n: Node, e: Effect, task: TaskId, me: Key)
    ensures Tracked(n.tracker, task, me) ==> Tracked(Apply(n, e).tracker, task, me)
    ensures e.Keep? && e.key == me && e.r.taskId == task ==> Tracked(Apply(n, e).tracker, task, me)
  {
    if e.Keep? {
      StoreTracks(n.tracker, e.r, e.key, e.weight, task, me);
    }
  }

  lemma ActKeepsStores(w: World, n: Node, me: Key, tid: nat, a: Action, task: TaskId, stores: nat, cleanups: nat)
    requires tid in n.threads && StoresInv(n, me, task, stores, cleanups) && NoOverlap(n, task)
    ensures StoresInv(ActStep(w, me, n, tid, a), me, task, stores + One(StoresOwn(n, Act(tid, a), task)), cleanups)
  {
    var th := n.threads[tid];
    var e := EffectOf(n, me, th, a);
    var m := ActStep(w, me, n, tid, a);
    AdvanceShape(w, n, me, th, a, task);
    ActCounts(n, me, tid, a, task);
    ApplyTracks(n, e, task, me);
    assert m.tracker == Apply(n, e).tracker;
    if InProgress(th, task) {
      assert Busy(n, task);
      OnlyOneInProgress(n, m, tid, task);
    } else if Busy(n, task) {
      var k :| k in n.threads && InProgress(n.threads[k], task);
      assert k in m.threads && m.threads[k] == n.threads[k];
    } else {
      assert Busy(m, task) ==> tid in m.threads && InProgress(m.threads[tid], task);
    }
  }

  lemma OnlyOneInProgress(n: Node, m: Node, tid: nat, task: TaskId)
    requires tid in n.threads && InProgress(n.threads[tid], task) && NoOverlap(n, task)
    requires SameButOne(n.threads, m.threads, tid)
    ensures Busy(m, task) ==> tid in m.threads && InProgress(m.threads[tid], task)
  {
  }

  // ---------- the other steps ----------

  // New goroutines are neither in progress nor stored; a tracker loses a task only by a cleanup.
  predicate Harmless(n: Node, m: Node, me: Key, step: Step, task: TaskId) {
    && (forall k :: k in n.threads ==> k in m.threads && m.threads[k] == n.threads[k])
    && (forall k :: k in m.threads && k !in n.threads ==>
          !InProgress(m.threads[k], task) && !Unpublished(m.threads[k], task))
    && (!CleansUp(n, step, task) ==> Tracked(n.tracker, task, me) == Tracked(m.tracker, task, me))
  }

  lemma HarmlessKeeps(n: Node, m: Node, me: Key, step: Step, task: TaskId, sends: nat, stores: nat, cleanups: nat)
    requires Harmless(n, m, me, step, task)
    requires StoresInv(n, me, task, stores, cleanups) && SendsInv(n, task, sends, stores)
    ensures StoresInv(m, me, task, stores, cleanups + One(CleansUp(n, step, task))) && SendsInv(m, task, sends, stores)
  {
    assert UnpublishedThreads(n.threads, task) == UnpublishedThreads(m.threads, task);
    if Busy(n, task) {
      var k :| k in n.threads && InProgress(n.threads[k], task);
      assert k in m.threads && InProgress(m.threads[k], task);
    }
  }

  lemma ConfirmHarmless(n: Node, move: ConfirmMove, me: Key, step: Step, task: TaskId)
    requires n.confirms.todo != []
    ensures Harmless(n, ConfirmStep(n, move), me, step, task)
  {
  }

  lemma TimeoutHarmless(n: Node, me: Key, step: Step, task: TaskId)
    requires n.timeouts.todo != []
    ensures Harmless(n, TimeoutStep(n, TimeoutMoveOf(n, step)), me, step, task)
  {
    MoveHarmless(n, TimeoutMoveOf(n, step), me, step, task);
  }

  lemma MoveHarmless(n: Node, move: TimeoutMove, me: Key, step: Step, task: TaskId)
    requires n.timeouts.todo != [] && (move.Forget? && n.timeouts.todo[0].0 == task ==> CleansUp(n, step, task))
    ensures Harmless(n, TimeoutStep(n, move), me, step, task)
  {
  }

  lemma PollHarmless(w: World, n: Node, me: Key, step: Step, task: TaskId)
    requires IsPoll(step)
    ensures Harmless(n, Poll(w, n, step), me, step, task)
  {
    if step.CheckHead? || step.MovePending? {
      if n.confirms.todo != [] {
        ConfirmHarmless(n, ConfirmMoveOf(w, n, step), me, step, task);
      }
    } else if n.timeouts.todo != [] {
      TimeoutHarmless(n, me, step, task);
    }
  }

  lemma ArrivalHarmless(w: World, n: Node, me: Key, step: Step, task: TaskId)
    requires IsArrival(step)
    ensures Harmless(n, Arrive(w, n, step), me, step, task)
  {
  }

  lemma UpkeepHarmless(n: Node, me: Key, step: Step, task: TaskId)
    requires !step.Act? && !IsArrival(step) && !IsPoll(step)
    ensures Harmless(n, Upkeep(n, step), me, step, task)
  {
  }

  lemma NodeKeeps(w: World, n: Node, me: Key, step: Step, task: TaskId, sends: nat, stores: nat, cleanups: nat)
    requires StoresInv(n, me, task, stores, cleanups) && SendsInv(n, task, sends, stores) && NoOverlap(n, task)
    ensures var m := NodeStep(w, me, n, step);
            && StoresInv(m, me, task, stores + One(StoresOwn(n, step, task)), cleanups + One(CleansUp(n, step, task)))
            && SendsInv(m, task, sends + One(Publishes(n, step, task)), stores + One(StoresOwn(n, step, task)))
  {
    if step.Act? {
      if step.tid in n.threads {
        ActKeepsStores(w, n, me, step.tid, step.action, task, stores, cleanups);
        ActKeepsSends(w, n, me, step.tid, step.action, task, sends, stores);
      }
    } else {
      if IsArrival(step) {
        ArrivalHarmless(w, n, me, step, task);
      } else if IsPoll(step) {
        PollHarmless(w, n, me, step, task);
      } else {
        UpkeepHarmless(n, me, step, task);
      }
      HarmlessKeeps(n, NodeStep(w, me, n, step), me, step, task, sends, stores, cleanups);
    }
  }

  // ---------- main result ----------

  predicate NeverOverlaps(states: seq<World>, me: Key, task: TaskId) {
    forall i :: 0 <= i < |states| && me in states[i].nodes ==> NoOverlap(states[i].nodes[me], task)
  }

  ghost predicate CountsInv(states: seq<World>, events: seq<Event>, k: nat, me: Key, task: TaskId)
    requires k <= |events| && |states| == |events| + 1
  {
    && me in states[k].nodes
    && StoresInv(states[k].nodes[me], me, task, OwnStores(states, events, k, me, task),
                 Cleanups(states, events, k, me, task))
    && SendsInv(states[k].nodes[me], task, Publications(states, events, k, me, task),
                OwnStores(states, events, k, me, task))
  }

  // A step of the world acts on one node at most.
  lemma LocalOnly(w: World, e: Event, me: Key)
    requires me in w.nodes
    ensures me in WorldStep(w, e).nodes
    ensures WorldStep(w, e).nodes[me]
         == if e.Local? && e.me == me then NodeStep(w, me, w.nodes[me], e.step) else w.nodes[me]
  {
  }

  lemma StepKeepsCounts(states: seq<World>, events: seq<Event>, k: nat, me: Key, task: TaskId)
    requires k < |events| && |states| == |events| + 1 && CountsInv(states, events, k, me, task)
    requires NoOverlap(states[k].nodes[me], task) && states[k + 1] == WorldStep(states[k], events[k])
    ensures CountsInv(states, events, k + 1, me, task)
  {
    var w, e := states[k], events[k];
    LocalOnly(w, e, me);
    if e.Local? && e.me == me {
      NodeKeeps(w, w.nodes[me], me, e.step, task, Publications(states, events, k, me, task),
                OwnStores(states, events, k, me, task), Cleanups(states, events, k, me, task));
    }
  }

  lemma {:induction false} PublicationSafe(states: seq<World>, events: seq<Event>, k: nat, me: Key, task: TaskId)
    requires Run(states, events) && k <= |events| && me in states[0].nodes && NeverOverlaps(states, me, task)
    ensures CountsInv(states, events, k, me, task)
  {
    if k == 0 {
      assert UnpublishedThreads(states[0].nodes[me].threads, task) == {};
    } else {
      PublicationSafe(states, events, k - 1, me, task);
      StepKeepsCounts(states, events, k - 1, me, task);
    }
  }

  // When its calls of ProcessTask do not overlap, a node publishes an answer to a task at most once more than the
  // task was cleaned up, however often it is retried, promoted, requested or answered by others.
  lemma PublicationBound(states: seq<World>, events: seq<Event>, k: nat, me: Key, task: TaskId)
    requires Run(states, events) && k <= |events| && me in states[0].nodes && NeverOverlaps(states, me, task)
    ensures Publications(states, events, k, me, task) <= 1 + Cleanups(states, events, k, me, task)
  {
    PublicationSafe(states, events, k, me, task);
  }
}
