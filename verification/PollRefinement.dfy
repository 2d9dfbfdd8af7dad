// The machine's polling steps for one listed row, with the goroutine they start, do what the loops of the code do with
// that row (pkg/operator/task/check.go).
module PollRefinement {
  import opened Basics
  import opened TaskModel
  import opened TaskMachine
  import opened RetryRounds
  import opened TaskOutcomes
  import opened TaskRefinement

  // What a node and the signature log hold of the processor's memory.
  function Remembered(w: World, me: Key): Memory
    requires me in w.nodes
  {
    Memory(w.nodes[me].tracker, w.nodes[me].records, w.nodes[me].tasks, w.signed)
  }

  // The parts of a node that goroutines do not touch, and its other goroutines.
  predicate Otherwise(n: Node, m: Node) {
    && m.threads == n.threads && m.confirms == n.confirms && m.timeouts == n.timeouts
    && m.epoch == n.epoch && m.threshold == n.threshold
  }

  lemma ApplyKeepsLoops(n: Node, e: Effect)
    ensures Otherwise(n, Apply(n, e))
  {
  }

  lemma {:induction false} MovesKeepLoops(w: World, me: Key, s: Spot, actions: seq<Action>)
    ensures Otherwise(s.n, Moves(w, me, s, actions).n)
    decreases |actions|
  {
    if actions != [] {
      if s.th.Some? {
        ApplyKeepsLoops(s.n, EffectOf(s.n, me, s.th.value, actions[0]));
      }
      MovesKeepLoops(w, me, Move(w, me, s, actions[0]), actions[1..]);
    }
  }

  lemma {:induction false} AfterAppend(w: World, first: seq<Event>, rest: seq<Event>)
    ensures After(w, first + rest) == After(After(w, first), rest)
    decreases |first|
  {
    if first == [] {
      assert first + rest == rest;
    } else {
      AfterAppend(WorldStep(w, first[0]), first[1..], rest);
      assert (first + rest)[1..] == first[1..] + rest;
    }
  }

  lemma AfterTwo(w: World, a: Event, b: Event)
    ensures After(w, [a, b]) == WorldStep(WorldStep(w, a), b)
  {
    assert [a, b][1..] == [b];
    assert After(WorldStep(w, a), [b]) == After(WorldStep(WorldStep(w, a), b), []);
  }

  // A step of a loop: it is the node's own, and signs nothing.
  lemma LoopStep(w: World, me: Key, step: Step)
    requires me in w.nodes && IsPoll(step)
    ensures WorldStep(w, Local(me, step)) == w.(nodes := w.nodes[me := Poll(w, w.nodes[me], step)])
  {
    assert w.signed + {} == w.signed;
  }

  lemma {:induction false} NobodyActs(w: World, me: Key, tid: nat, actions: seq<Action>)
    requires me in w.nodes && tid !in w.nodes[me].threads
    ensures After(w, Acts(me, tid, actions)) == w
    decreases |actions|
  {
    if actions != [] {
      StepOfNothing(w, me, tid, actions[0]);
      NobodyActs(w, me, tid, actions[1..]);
    }
  }

  lemma GoneIsPlaced(w: World, me: Key, tid: nat, s: Spot)
    requires s.th.None? && tid !in s.n.threads
    ensures var v := Placed(w, me, tid, s);
            me in v.nodes && v.nodes[me] == s.n && Remembered(v, me) == Recall(s)
  {
    assert s.n.threads - {tid} == s.n.threads;
  }

  // The goroutine that a loop starts, run to its end: the row is answered, and nothing else changes.
  lemma StartedAnswers(w: World, me: Key, n: Node, tid: nat, q: Request, c: ProcessCalls)
    requires me in w.nodes && tid !in n.threads && Answers(w.chains, q, Fetched(c.attempts, q.block))
    ensures var s := Spot(n, Some(Requested(q)), w.signed);
            var end := After(Placed(w, me, tid, s), Acts(me, tid, AnswerAndCheck(s, me, q, c)));
            && me in end.nodes && Otherwise(n, end.nodes[me])
            && Remembered(end, me) == AnswerResult(Recall(s), me, n.threshold, q, c)
  {
    var s := Spot(n, Some(Requested(q)), w.signed);
    var actions := AnswerAndCheck(s, me, q, c);
    AnswerRefines(w, me, s, q, c);
    MovesAreSteps(w, me, tid, s, actions);
    MovesKeepLoops(w, me, s, actions);
    GoneIsPlaced(w, me, tid, Moves(w, me, s, actions));
  }

  // ---------- the retry loop ----------

  predicate Retrying(n: Node, task: TaskId, row: TaskRow, rest: seq<(TaskId, TaskRow)>) {
    n.timeouts == TimeoutLoop([(task, row)] + rest, Next)
  }

  lemma RowRequestReads(task: TaskId, row: TaskRow)
    ensures ReadFrom(RowRequest(task, row), task, row)
  {
  }

  // The node once the row is counted and handed to a goroutine.
  function Counted(n: Node, task: TaskId, rest: seq<(TaskId, TaskRow)>): Node {
    n.(tasks := CountRetry(n.tasks, task), timeouts := TimeoutLoop(rest, Next))
  }

  lemma RetryMove(w: World, me: Key, tid: nat, task: TaskId, row: TaskRow, rest: seq<(TaskId, TaskRow)>, ok: bool)
    requires me in w.nodes && Retrying(w.nodes[me], task, row, rest)
    requires tid !in w.nodes[me].threads && task in w.nodes[me].tasks
    ensures var n := w.nodes[me];
            WorldStep(w, Local(me, Retry(tid, ok, RowRequest(task, row))))
            == w.(nodes := w.nodes[me :=
                 if !ok then n.(timeouts := TimeoutLoop(rest, Next))
                 else if n.tasks[task].retries + 1 >= MAX_RETRY_COUNT then
                   n.(tasks := CountRetry(n.tasks, task), timeouts := n.timeouts.(stage := Deleting))
                 else Counted(n, task, rest).(threads := n.threads[tid := Requested(RowRequest(task, row))])])
  {
    RowRequestReads(task, row);
    LoopStep(w, me, Retry(tid, ok, RowRequest(task, row)));
  }

  // The two steps of a deletion.
  function Dropped(n: Node, task: TaskId, ok: bool): Node {
    n.(tasks := if ok then n.tasks - {task} else n.tasks, timeouts := n.timeouts.(stage := Cleaning))
  }

  function Forgotten(n: Node, task: TaskId, rest: seq<(TaskId, TaskRow)>): Node {
    n.(tracker := Cleanup(n.tracker, task), timeouts := TimeoutLoop(rest, Next))
  }

  lemma DeleteMove(w: World, me: Key, task: TaskId, row: TaskRow, rest: seq<(TaskId, TaskRow)>, ok: bool)
    requires me in w.nodes && w.nodes[me].timeouts == TimeoutLoop([(task, row)] + rest, Deleting)
    ensures WorldStep(w, Local(me, DeleteRow(ok))) == w.(nodes := w.nodes[me := Dropped(w.nodes[me], task, ok)])
  {
    LoopStep(w, me, DeleteRow(ok));
  }

  lemma CleanMove(w: World, me: Key, task: TaskId, row: TaskRow, rest: seq<(TaskId, TaskRow)>)
    requires me in w.nodes && w.nodes[me].timeouts == TimeoutLoop([(task, row)] + rest, Cleaning)
    ensures WorldStep(w, Local(me, CleanupTask)) == w.(nodes := w.nodes[me := Forgotten(w.nodes[me], task, rest)])
  {
    LoopStep(w, me, CleanupTask);
    assert ([(task, row)] + rest)[1..] == rest;
  }

  lemma DeleteMoves(w: World, me: Key, task: TaskId, row: TaskRow, rest: seq<(TaskId, TaskRow)>, ok: bool)
    requires me in w.nodes && w.nodes[me].timeouts == TimeoutLoop([(task, row)] + rest, Deleting)
    ensures After(w, [Local(me, DeleteRow(ok)), Local(me, CleanupTask)])
         == w.(nodes := w.nodes[me := Forgotten(Dropped(w.nodes[me], task, ok), task, rest)])
  {
    AfterTwo(w, Local(me, DeleteRow(ok)), Local(me, CleanupTask));
    DeleteMove(w, me, task, row, rest, ok);
    var n := Dropped(w.nodes[me], task, ok);
    CleanMove(w.(nodes := w.nodes[me := n]), me, task, row, rest);
    PlacedAgain(w, me, n, Forgotten(n, task, rest), w.signed);
  }

  lemma NothingToDelete(w: World, me: Key, ok: bool)
    requires me in w.nodes && w.nodes[me].timeouts.stage == Next
    ensures After(w, [Local(me, DeleteRow(ok)), Local(me, CleanupTask)]) == w
  {
    AfterTwo(w, Local(me, DeleteRow(ok)), Local(me, CleanupTask));
    LoopStep(w, me, DeleteRow(ok));
    assert w.nodes[me := w.nodes[me]] == w.nodes;
    LoopStep(w, me, CleanupTask);
  }

  // The retry loop's steps for a row, and the actions of the goroutine it may start.
  function RetryEvents(me: Key, tid: nat, q: Request, x: RetryWrites, answer: seq<Action>): seq<Event> {
    [Local(me, Retry(tid, x.countOk, q))]
    + ([Local(me, DeleteRow(x.deleteOk)), Local(me, CleanupTask)] + Acts(me, tid, answer))
  }

  lemma RetryEventsInTurn(w: World, me: Key, tid: nat, q: Request, x: RetryWrites, answer: seq<Action>)
    ensures After(w, RetryEvents(me, tid, q, x, answer))
         == After(After(WorldStep(w, Local(me, Retry(tid, x.countOk, q))),
                        [Local(me, DeleteRow(x.deleteOk)), Local(me, CleanupTask)]), Acts(me, tid, answer))
  {
    var deletion := [Local(me, DeleteRow(x.deleteOk)), Local(me, CleanupTask)];
    assert RetryEvents(me, tid, q, x, answer)[1..] == deletion + Acts(me, tid, answer);
    AfterAppend(WorldStep(w, Local(me, Retry(tid, x.countOk, q))), deletion, Acts(me, tid, answer));
  }

  // The goroutine that a counted retry starts.
  function Started(n: Node, task: TaskId, row: TaskRow, rest: seq<(TaskId, TaskRow)>, signed: SignatureLog): Spot {
    Spot(Counted(n, task, rest), Some(Requested(RowRequest(task, row))), signed)
  }

  // Below the limit the row is answered.
  lemma RetryAnswers(w: World, me: Key, tid: nat, task: TaskId, row: TaskRow, rest: seq<(TaskId, TaskRow)>,
                     x: RetryWrites, c: ProcessCalls)
    requires me in w.nodes && Retrying(w.nodes[me], task, row, rest)
    requires tid !in w.nodes[me].threads && task in w.nodes[me].tasks
    requires x.countOk && w.nodes[me].tasks[task].retries + 1 < MAX_RETRY_COUNT
    requires Answers(w.chains, RowRequest(task, row), Fetched(c.attempts, row.block))
    ensures var n, q := w.nodes[me], RowRequest(task, row);
            var s := Started(n, task, row, rest, w.signed);
            var end := After(w, RetryEvents(me, tid, q, x, AnswerAndCheck(s, me, q, c)));
            && me in end.nodes && Otherwise(n.(timeouts := TimeoutLoop(rest, Next)), end.nodes[me])
            && Remembered(end, me) == RetryResult(Remembered(w, me), me, n.threshold, task, row, x, c)
  {
    var n, q := w.nodes[me], RowRequest(task, row);
    var s := Started(n, task, row, rest, w.signed);
    RetryEventsInTurn(w, me, tid, q, x, AnswerAndCheck(s, me, q, c));
    RetryMove(w, me, tid, task, row, rest, true);
    NothingToDelete(Placed(w, me, tid, s), me, x.deleteOk);
    StartedAnswers(w, me, s.n, tid, q, c);
  }

  // At the limit it is deleted and untracked, and a count that fails leaves it alone. No goroutine is started.
  lemma RetryEnds(w: World, me: Key, tid: nat, task: TaskId, row: TaskRow, rest: seq<(TaskId, TaskRow)>,
                  x: RetryWrites, c: ProcessCalls, answer: seq<Action>)
    requires me in w.nodes && Retrying(w.nodes[me], task, row, rest)
    requires tid !in w.nodes[me].threads && task in w.nodes[me].tasks
    requires !x.countOk || w.nodes[me].tasks[task].retries + 1 >= MAX_RETRY_COUNT
    ensures var n := w.nodes[me];
            var end := After(w, RetryEvents(me, tid, RowRequest(task, row), x, answer));
            && me in end.nodes && Otherwise(n.(timeouts := TimeoutLoop(rest, Next)), end.nodes[me])
            && Remembered(end, me) == RetryResult(Remembered(w, me), me, n.threshold, task, row, x, c)
  {
    var n := w.nodes[me];
    var retried := WorldStep(w, Local(me, Retry(tid, x.countOk, RowRequest(task, row))));
    RetryEventsInTurn(w, me, tid, RowRequest(task, row), x, answer);
    RetryMove(w, me, tid, task, row, rest, x.countOk);
    if x.countOk {
      DeleteMoves(retried, me, task, row, rest, x.deleteOk);
    } else {
      NothingToDelete(retried, me, x.deleteOk);
    }
    NobodyActs(After(retried, [Local(me, DeleteRow(x.deleteOk)), Local(me, CleanupTask)]), me, tid, answer);
  }

  // Whatever comes of the database calls, the steps of the machine for a listed row that is still there leave what
  // HandleTimeout leaves, and the loop at the next row.
  lemma RetryRefines(w: World, me: Key, tid: nat, task: TaskId, row: TaskRow, rest: seq<(TaskId, TaskRow)>,
                     x: RetryWrites, c: ProcessCalls)
    requires me in w.nodes && Retrying(w.nodes[me], task, row, rest)
    requires tid !in w.nodes[me].threads && task in w.nodes[me].tasks
    requires Answers(w.chains, RowRequest(task, row), Fetched(c.attempts, row.block))
    ensures var n, q := w.nodes[me], RowRequest(task, row);
            var s := Started(n, task, row, rest, w.signed);
            var end := After(w, RetryEvents(me, tid, q, x, AnswerAndCheck(s, me, q, c)));
            && me in end.nodes && Otherwise(n.(timeouts := TimeoutLoop(rest, Next)), end.nodes[me])
            && Remembered(end, me) == RetryResult(Remembered(w, me), me, n.threshold, task, row, x, c)
  {
    if x.countOk && w.nodes[me].tasks[task].retries + 1 < MAX_RETRY_COUNT {
      RetryAnswers(w, me, tid, task, row, rest, x, c);
    } else {
      var s := Started(w.nodes[me], task, row, rest, w.signed);
      RetryEnds(w, me, tid, task, row, rest, x, c, AnswerAndCheck(s, me, RowRequest(task, row), c));
    }
  }

  // ---------- the confirmation loop ----------

  predicate Confirms(n: Node, task: TaskId, row: TaskRow, rest: seq<(TaskId, TaskRow)>) {
    n.confirms == ConfirmLoop([(task, row)] + rest, false)
  }

  // A head that is read is the number of a block of the row's chain.
  predicate Seen(chains: Chains, row: TaskRow, head: Option<nat>) {
    head.Some? ==> Exists(chains, row.chainId, head.value)
  }

  predicate Reaches(row: TaskRow, head: Option<nat>) {
    head.Some? && row.block != 0 && head.value >= row.block + row.required
  }

  lemma HeadMove(w: World, me: Key, task: TaskId, row: TaskRow, rest: seq<(TaskId, TaskRow)>, head: Option<nat>)
    requires me in w.nodes && Confirms(w.nodes[me], task, row, rest) && Seen(w.chains, row, head)
    ensures var n := w.nodes[me];
            WorldStep(w, Local(me, CheckHead(head)))
            == w.(nodes := w.nodes[me :=
                 n.(confirms := if Reaches(row, head) then ConfirmLoop([(task, row)] + rest, true)
                                else ConfirmLoop(rest, false))])
  {
    LoopStep(w, me, CheckHead(head));
    assert ([(task, row)] + rest)[1..] == rest;
  }

  lemma NotReady(w: World, me: Key, tid: nat, ok: bool, q: Request)
    requires me in w.nodes && !w.nodes[me].confirms.ready
    ensures WorldStep(w, Local(me, MovePending(tid, ok, q))) == w
  {
    LoopStep(w, me, MovePending(tid, ok, q));
    assert w.nodes[me := w.nodes[me]] == w.nodes;
  }

  // The node once the row is promoted and handed to a goroutine.
  function Moved(n: Node, task: TaskId, rest: seq<(TaskId, TaskRow)>): Node {
    n.(tasks := SetStatus(n.tasks, task, Pending), confirms := ConfirmLoop(rest, false))
  }

  lemma PendingMove(w: World, me: Key, tid: nat, task: TaskId, row: TaskRow, rest: seq<(TaskId, TaskRow)>, ok: bool)
    requires me in w.nodes && w.nodes[me].confirms == ConfirmLoop([(task, row)] + rest, true)
    requires tid !in w.nodes[me].threads
    ensures var n := w.nodes[me];
            WorldStep(w, Local(me, MovePending(tid, ok, RowRequest(task, row))))
            == w.(nodes := w.nodes[me :=
                 if !ok then n.(confirms := ConfirmLoop(rest, false))
                 else Moved(n, task, rest).(threads := n.threads[tid := Requested(RowRequest(task, row))])])
  {
    RowRequestReads(task, row);
    LoopStep(w, me, MovePending(tid, ok, RowRequest(task, row)));
    assert ([(task, row)] + rest)[1..] == rest;
  }

  // The confirmation loop's steps for a row, and the actions of the goroutine it may start.
  function ConfirmEvents(me: Key, tid: nat, q: Request, head: Option<nat>, ok: bool, answer: seq<Action>): seq<Event> {
    [Local(me, CheckHead(head)), Local(me, MovePending(tid, ok, q))] + Acts(me, tid, answer)
  }

  function MovedSpot(n: Node, task: TaskId, row: TaskRow, rest: seq<(TaskId, TaskRow)>, signed: SignatureLog): Spot {
    Spot(Moved(n, task, rest), Some(Requested(RowRequest(task, row))), signed)
  }

  // The two steps of the loop by themselves.
  lemma ConfirmMoves(w: World, me: Key, tid: nat, task: TaskId, row: TaskRow, rest: seq<(TaskId, TaskRow)>,
                     head: Option<nat>, ok: bool)
    requires me in w.nodes && Confirms(w.nodes[me], task, row, rest) && tid !in w.nodes[me].threads
    requires Seen(w.chains, row, head)
    ensures var n, q := w.nodes[me], RowRequest(task, row);
            After(w, [Local(me, CheckHead(head)), Local(me, MovePending(tid, ok, q))])
            == if Reaches(row, head) && ok then Placed(w, me, tid, MovedSpot(n, task, row, rest, w.signed))
               else w.(nodes := w.nodes[me := n.(confirms := ConfirmLoop(rest, false))])
  {
    var n, q := w.nodes[me], RowRequest(task, row);
    AfterTwo(w, Local(me, CheckHead(head)), Local(me, MovePending(tid, ok, q)));
    HeadMove(w, me, task, row, rest, head);
    var v := WorldStep(w, Local(me, CheckHead(head)));
    if Reaches(row, head) {
      PendingMove(v, me, tid, task, row, rest, ok);
      var m := if ok then Moved(n, task, rest).(threads := n.threads[tid := Requested(q)])
               else n.(confirms := ConfirmLoop(rest, false));
      PlacedAgain(w, me, v.nodes[me], m, w.signed);
    } else {
      NotReady(v, me, tid, ok, q);
    }
  }

  // Whatever head is read and whether or not the update succeeds, the steps of the machine for a listed row leave what
  // HandleConfirmation leaves, and the loop at the next row.
  lemma ConfirmRefines(w: World, me: Key, tid: nat, task: TaskId, row: TaskRow, rest: seq<(TaskId, TaskRow)>,
                       head: Option<nat>, ok: bool, c: ProcessCalls)
    requires me in w.nodes && Confirms(w.nodes[me], task, row, rest) && tid !in w.nodes[me].threads
    requires row.status == Confirming && Seen(w.chains, row, head)
    requires Answers(w.chains, RowRequest(task, row), Fetched(c.attempts, row.block))
    ensures var n, q := w.nodes[me], RowRequest(task, row);
            var s := MovedSpot(n, task, row, rest, w.signed);
            var end := After(w, ConfirmEvents(me, tid, q, head, ok, AnswerAndCheck(s, me, q, c)));
            && me in end.nodes && Otherwise(n.(confirms := ConfirmLoop(rest, false)), end.nodes[me])
            && Remembered(end, me) == ConfirmResult(Remembered(w, me), me, n.threshold, task, row, head, ok, c)
  {
    var n, q := w.nodes[me], RowRequest(task, row);
    var s := MovedSpot(n, task, row, rest, w.signed);
    var answer := AnswerAndCheck(s, me, q, c);
    var polled := [Local(me, CheckHead(head)), Local(me, MovePending(tid, ok, q))];
    AfterAppend(w, polled, Acts(me, tid, answer));
    ConfirmMoves(w, me, tid, task, row, rest, head, ok);
    if Reaches(row, head) && ok {
      StartedAnswers(w, me, s.n, tid, q, c);
    } else {
      NobodyActs(After(w, polled), me, tid, answer);
    }
  }
}
