// How task rows move: the two polling loops and the API share the table, and a row is pending only once its block
// is confirmed (pkg/operator/task/check.go, pkg/operator/api/handlers.go).
module TaskLifecycle {
  import opened TaskModel
  import opened TaskMachine

  // Same row up to status and retry count.
  predicate SameRow(a: TaskRow, b: TaskRow) { a.(status := b.status, retries := b.retries) == b }

  predicate ConfirmedRow(chains: Chains, row: TaskRow) { Exists(chains, row.chainId, row.block + row.required) }

  predicate DistinctIds(todo: seq<(TaskId, TaskRow)>) {
    forall i, j :: 0 <= i < j < |todo| ==> todo[i].0 != todo[j].0
  }

  predicate PendingInv(chains: Chains, tasks: map<TaskId, TaskRow>) {
    forall t :: t in tasks && tasks[t].status == Pending ==> ConfirmedRow(chains, tasks[t])
  }

  predicate Waits(tasks: map<TaskId, TaskRow>, item: (TaskId, TaskRow)) {
    item.0 in tasks && SameRow(tasks[item.0], item.1) && tasks[item.0].status != Pending
  }

  predicate Retries(tasks: map<TaskId, TaskRow>, item: (TaskId, TaskRow)) {
    item.0 in tasks && SameRow(tasks[item.0], item.1) && tasks[item.0].status != Confirming
  }

  // Rows listed as confirming are still there and not yet pending.
  predicate ConfirmInv(chains: Chains, tasks: map<TaskId, TaskRow>, c: ConfirmLoop) {
    && DistinctIds(c.todo)
    && (forall i :: 0 <= i < |c.todo| ==> Waits(tasks, c.todo[i]))
    && (c.ready && c.todo != [] ==> ConfirmedRow(chains, c.todo[0].1))
  }

  // The listed pending rows still owed a retry: the first is done with once its deletion was issued.
  function Owed(l: TimeoutLoop): seq<(TaskId, TaskRow)> {
    if l.stage == Cleaning && l.todo != [] then l.todo[1..] else l.todo
  }

  predicate TimeoutInv(tasks: map<TaskId, TaskRow>, l: TimeoutLoop) {
    && DistinctIds(l.todo)
    && (forall i :: 0 <= i < |Owed(l)| ==> Retries(tasks, Owed(l)[i]))
    && (l.todo == [] ==> l.stage == Next)
  }

  // No row is owed both a confirmation and a retry.
  predicate Apart(c: ConfirmLoop, l: TimeoutLoop) {
    forall i, j :: 0 <= i < |c.todo| && 0 <= j < |Owed(l)| ==> c.todo[i].0 != Owed(l)[j].0
  }

  predicate CreatingInv(chains: Chains, threads: map<nat, Thread>) {
    forall tid :: tid in threads && threads[tid].Creating? && threads[tid].row.status == Pending ==>
      ConfirmedRow(chains, threads[tid].row)
  }

  predicate LoopsInv(chains: Chains, n: Node) {
    && PendingInv(chains, n.tasks)
    && ConfirmInv(chains, n.tasks, n.confirms)
    && TimeoutInv(n.tasks, n.timeouts)
    && Apart(n.confirms, n.timeouts)
    && CreatingInv(chains, n.threads)
  }

  // ---------- the table under each statement ----------

  predicate TableKeeps(chains: Chains, tasks: map<TaskId, TaskRow>, n: Node) {
    PendingInv(chains, tasks) && ConfirmInv(chains, tasks, n.confirms) && TimeoutInv(tasks, n.timeouts)
  }

  lemma FinishKeeps(chains: Chains, n: Node, task: TaskId)
    requires LoopsInv(chains, n)
    ensures TableKeeps(chains, SetStatus(n.tasks, task, Completed), n)
  {
  }

  lemma AddRowKeeps(chains: Chains, n: Node, task: TaskId, row: TaskRow)
    requires LoopsInv(chains, n) && task !in n.tasks && (row.status == Pending ==> ConfirmedRow(chains, row))
    ensures TableKeeps(chains, n.tasks[task := row], n)
  {
  }

  lemma ActKeepsLoops(w: World, n: Node, me: Key, tid: nat, a: Action)
    requires LoopsInv(w.chains, n) && tid in n.threads
    ensures LoopsInv(w.chains, ActStep(w, me, n, tid, a))
  {
    var th := n.threads[tid];
    var e := EffectOf(n, me, th, a);
    if e.Finish? {
      FinishKeeps(w.chains, n, e.task);
    } else if e.AddRow? {
      AddRowKeeps(w.chains, n, e.task, e.row);
    }
    AdvanceNeverCreates(w, n, me, th, a);
  }

  lemma AdvanceNeverCreates(w: World, n: Node, me: Key, th: Thread, a: Action)
    ensures var after := Advance(w, n, me, th, a);
            after.Some? && after.value.Creating? ==> after.value == th
  {
  }

  // ---------- the confirmation loop ----------

  lemma DropConfirm(chains: Chains, tasks: map<TaskId, TaskRow>, c: ConfirmLoop, l: TimeoutLoop)
    requires c.todo != [] && ConfirmInv(chains, tasks, c) && Apart(c, l)
    ensures ConfirmInv(chains, tasks, ConfirmLoop(c.todo[1..], false)) && Apart(ConfirmLoop(c.todo[1..], false), l)
    ensures forall i :: 0 <= i < |c.todo[1..]| ==> c.todo[1..][i].0 != c.todo[0].0
  {
  }

  lemma PromoteKeeps(chains: Chains, n: Node)
    requires LoopsInv(chains, n) && n.confirms.todo != [] && n.confirms.ready
    ensures var task := n.confirms.todo[0].0;
            var tasks := SetStatus(n.tasks, task, Pending);
            && PendingInv(chains, tasks)
            && ConfirmInv(chains, tasks, ConfirmLoop(n.confirms.todo[1..], false))
            && TimeoutInv(tasks, n.timeouts)
  {
    DropConfirm(chains, n.tasks, n.confirms, n.timeouts);
    var (task, row) := n.confirms.todo[0];
    assert Waits(n.tasks, n.confirms.todo[0]);
    var tasks := SetStatus(n.tasks, task, Pending);
    var rest := n.confirms.todo[1..];
    forall i | 0 <= i < |rest| ensures Waits(tasks, rest[i]) {
      assert Waits(n.tasks, rest[i]);
    }
    forall i | 0 <= i < |Owed(n.timeouts)| ensures Retries(tasks, Owed(n.timeouts)[i]) {
      assert Retries(n.tasks, Owed(n.timeouts)[i]);
    }
  }

  lemma ConfirmKeepsLoops(w: World, n: Node, step: Step)
    requires LoopsInv(w.chains, n) && (step.CheckHead? || step.MovePending?)
    ensures LoopsInv(w.chains, Poll(w, n, step))
  {
    if n.confirms.todo != [] {
      DropConfirm(w.chains, n.tasks, n.confirms, n.timeouts);
      if ConfirmMoveOf(w, n, step).Promote? {
        PromoteKeeps(w.chains, n);
      }
    }
  }

  // ---------- the retry loop ----------

  lemma DropTimeout(tasks: map<TaskId, TaskRow>, c: ConfirmLoop, l: TimeoutLoop)
    requires l.todo != [] && TimeoutInv(tasks, l) && Apart(c, l)
    ensures TimeoutInv(tasks, TimeoutLoop(l.todo[1..], Next)) && Apart(c, TimeoutLoop(l.todo[1..], Next))
  {
    var rest := TimeoutLoop(l.todo[1..], Next);
    forall i | 0 <= i < |Owed(rest)| ensures Retries(tasks, Owed(rest)[i]) && Owed(rest)[i] in Owed(l) {
      assert Owed(rest)[i] == if l.stage == Cleaning then Owed(l)[i] else Owed(l)[i + 1];
    }
  }

  lemma CountKeeps(chains: Chains, n: Node, task: TaskId)
    requires LoopsInv(chains, n)
    ensures TableKeeps(chains, CountRetry(n.tasks, task), n)
  {
  }

  lemma RemoveKeeps(chains: Chains, n: Node)
    requires LoopsInv(chains, n) && n.timeouts.todo != [] && n.timeouts.stage == Deleting
    ensures var task, l := n.timeouts.todo[0].0, n.timeouts.(stage := Cleaning);
            var tasks := n.tasks - {task};
            && PendingInv(chains, tasks) && ConfirmInv(chains, tasks, n.confirms) && TimeoutInv(tasks, l)
  {
    var task, tasks := n.timeouts.todo[0].0, n.tasks - {n.timeouts.todo[0].0};
    var l := n.timeouts.(stage := Cleaning);
    assert Owed(n.timeouts)[0].0 == task;
    forall i | 0 <= i < |n.confirms.todo| ensures Waits(tasks, n.confirms.todo[i]) {
      assert Waits(n.tasks, n.confirms.todo[i]);
    }
    forall i | 0 <= i < |Owed(l)| ensures Retries(tasks, Owed(l)[i]) {
      assert Owed(l)[i] == n.timeouts.todo[i + 1] == Owed(n.timeouts)[i + 1];
    }
  }

  lemma TimeoutKeepsLoops(w: World, n: Node, step: Step)
    requires LoopsInv(w.chains, n) && (step.Retry? || step.DeleteRow? || step.CleanupTask?)
    ensures LoopsInv(w.chains, Poll(w, n, step))
  {
    if n.timeouts.todo != [] {
      var move := TimeoutMoveOf(n, step);
      TimeoutMoveKeeps(w.chains, n, move, step);
    }
  }

  lemma TimeoutMoveKeeps(chains: Chains, n: Node, move: TimeoutMove, step: Step)
    requires LoopsInv(chains, n) && n.timeouts.todo != [] && move == TimeoutMoveOf(n, step)
    ensures LoopsInv(chains, TimeoutStep(n, move))
  {
    DropTimeout(n.tasks, n.confirms, n.timeouts);
    CountKeeps(chains, n, n.timeouts.todo[0].0);
    assert n.timeouts.stage == Next ==> Retries(n.tasks, Owed(n.timeouts)[0]);
    match move
    case CountAndRun(_, _) =>
      DropTimeout(CountRetry(n.tasks, n.timeouts.todo[0].0), n.confirms, n.timeouts);
    case Remove(_) => RemoveKeeps(chains, n); CleaningIsApart(n);
    case CountAndDelete =>
      assert Owed(n.timeouts.(stage := Deleting)) == Owed(n.timeouts) == n.timeouts.todo;
    case _ =>
  }

  lemma CleaningIsApart(n: Node)
    requires Apart(n.confirms, n.timeouts) && n.timeouts.todo != [] && n.timeouts.stage == Deleting
    requires TimeoutInv(n.tasks, n.timeouts)
    ensures Apart(n.confirms, n.timeouts.(stage := Cleaning)) && TimeoutInv(n.tasks, n.timeouts.(stage := Cleaning))
  {
    var l := n.timeouts.(stage := Cleaning);
    forall i | 0 <= i < |Owed(l)| ensures Owed(l)[i] in Owed(n.timeouts) && Retries(n.tasks, Owed(l)[i]) {
      assert Owed(l)[i] == Owed(n.timeouts)[i + 1];
    }
  }

  // ---------- the other steps ----------

  lemma UpkeepKeepsLoops(chains: Chains, n: Node, step: Step)
    requires LoopsInv(chains, n) && !step.Act? && !IsArrival(step) && !IsPoll(step)
    ensures LoopsInv(chains, Upkeep(n, step))
  {
    var m := Upkeep(n, step);
    forall i, j | 0 <= i < |m.confirms.todo| && 0 <= j < |Owed(m.timeouts)|
      ensures m.confirms.todo[i].0 != Owed(m.timeouts)[j].0
    {
      assert m.timeouts == n.timeouts ==> Retries(n.tasks, Owed(n.timeouts)[j]);
      assert m.confirms == n.confirms ==> Waits(n.tasks, n.confirms.todo[i]);
    }
  }

  lemma ArrivalKeepsLoops(w: World, n: Node, step: Step)
    requires LoopsInv(w.chains, n) && IsArrival(step)
    ensures LoopsInv(w.chains, Arrive(w, n, step))
  {
  }

  lemma NodeKeepsLoops(w: World, n: Node, me: Key, step: Step)
    requires LoopsInv(w.chains, n)
    ensures LoopsInv(w.chains, NodeStep(w, me, n, step))
  {
    if step.Act? {
      if step.tid in n.threads {
        ActKeepsLoops(w, n, me, step.tid, step.action);
      }
    } else if IsArrival(step) {
      ArrivalKeepsLoops(w, n, step);
    } else if IsPoll(step) {
      if step.CheckHead? || step.MovePending? {
        ConfirmKeepsLoops(w, n, step);
      } else {
        TimeoutKeepsLoops(w, n, step);
      }
    } else {
      UpkeepKeepsLoops(w.chains, n, step);
    }
  }

  // Blocks are never taken back.
  lemma MoreBlocks(w: World, e: Event, n: Node)
    requires LoopsInv(w.chains, n)
    ensures LoopsInv(WorldStep(w, e).chains, n)
  {
    var v := WorldStep(w, e);
    assert forall c, b: nat :: Exists(w.chains, c, b) ==> Exists(v.chains, c, b);
    assert forall row :: ConfirmedRow(w.chains, row) ==> ConfirmedRow(v.chains, row);
  }

  ghost predicate AllLoopsInv(w: World) { forall k :: k in w.nodes ==> LoopsInv(w.chains, w.nodes[k]) }

  lemma StepKeepsLoops(w: World, e: Event, me: Key)
    requires me in w.nodes && LoopsInv(w.chains, w.nodes[me])
    ensures me in WorldStep(w, e).nodes && LoopsInv(WorldStep(w, e).chains, WorldStep(w, e).nodes[me])
  {
    if e.Local? && e.me == me {
      NodeKeepsLoops(w, w.nodes[me], me, e.step);
    } else {
      MoreBlocks(w, e, w.nodes[me]);
    }
  }

  lemma {:induction false} LoopsSafe(states: seq<World>, events: seq<Event>, k: nat)
    requires Run(states, events) && k <= |events|
    ensures AllLoopsInv(states[k])
  {
    if k > 0 {
      LoopsSafe(states, events, k - 1);
      var v := states[k];
      forall me | me in v.nodes ensures LoopsInv(v.chains, v.nodes[me]) {
        StepKeepsLoops(states[k - 1], events[k - 1], me);
      }
    }
  }

  // ---------- main results ----------

  // A pending row's block is confirmed: its chain has reached block + required confirmations, although rows are
  // listed, read, promoted, retried, deleted and created again in separate steps.
  lemma PendingMeansConfirmed(states: seq<World>, events: seq<Event>, k: nat, me: Key, task: TaskId)
    requires Run(states, events) && k <= |events| && me in states[k].nodes && task in states[k].nodes[me].tasks
    requires states[k].nodes[me].tasks[task].status == Pending
    ensures var row := states[k].nodes[me].tasks[task];
            var chains := states[k].chains;
            row.chainId in chains && row.block + row.required <= chains[row.chainId].head
  {
    LoopsSafe(states, events, k);
    assert LoopsInv(states[k].chains, states[k].nodes[me]);
  }

  // The retry loop never counts a retry on a row that is gone.
  lemma RetriesFindTheirRow(states: seq<World>, events: seq<Event>, k: nat, me: Key)
    requires Run(states, events) && k <= |events| && me in states[k].nodes
    ensures var n := states[k].nodes[me];
            n.timeouts.todo != [] ==>
              && (n.timeouts.stage == Next ==> n.timeouts.todo[0].0 in n.tasks)
              && forall step :: TimeoutMoveOf(n, step) != Crash
  {
    LoopsSafe(states, events, k);
    assert LoopsInv(states[k].chains, states[k].nodes[me]);
    var l := states[k].nodes[me].timeouts;
    assert l.todo != [] && l.stage == Next ==> Retries(states[k].nodes[me].tasks, Owed(l)[0]);
  }
}
