// Rounds of the retry loop over the table of tasks, with database calls that may fail (pkg/operator/task/check.go).
module RetryRounds {
  import opened Basics
  import opened KeyOrder
  import opened TaskModel
  import opened TaskMachine

  // Whether counting a retry of a row, and deleting it, succeed.
  datatype RetryWrites = RetryWrites(countOk: bool, deleteOk: bool)

  // What a round makes of a pending row: left alone when counting fails, otherwise counted, and deleted once the count
  // has reached the limit and the deletion succeeds.
  predicate Retried(task: TaskId, before: TaskRow, after: map<TaskId, TaskRow>, w: RetryWrites) {
    if !w.countOk then task in after && after[task].retries == before.retries
    else if before.retries + 1 >= MAX_RETRY_COUNT && w.deleteOk then task !in after
    else task in after && after[task].retries == before.retries + 1
  }

  // No row appears, and statuses change only to completed.
  predicate OnlyCompletes(before: map<TaskId, TaskRow>, after: map<TaskId, TaskRow>) {
    forall t :: t in after ==> t in before && (after[t].status == before[t].status || after[t].status == Completed)
  }

  // Part way through a round, whatever gets completed meanwhile: the rows in done have been handled, no other has.
  predicate PartOfRound(before: map<TaskId, TaskRow>, now: map<TaskId, TaskRow>, writes: TaskId -> RetryWrites,
                        done: set<TaskId>)
  {
    && OnlyCompletes(before, now)
    && (forall t :: t in before && t !in done ==> t in now && now[t].retries == before[t].retries)
    && (forall t :: t in before && t in done ==> Retried(t, before[t], now, writes(t)))
  }

  predicate Round(before: map<TaskId, TaskRow>, after: map<TaskId, TaskRow>, writes: TaskId -> RetryWrites) {
    && OnlyCompletes(before, after)
    && (forall t :: t in before && before[t].status == Pending ==> Retried(t, before[t], after, writes(t)))
    && (forall t :: t in before && before[t].status != Pending ==> t in after && after[t].retries == before[t].retries)
  }

  // ---------- one row of a round ----------

  function Complete(tasks: map<TaskId, TaskRow>, completed: set<TaskId>): map<TaskId, TaskRow> {
    map t | t in tasks :: if t in completed then tasks[t].(status := Completed) else tasks[t]
  }

  lemma CompleteKeepsPart(before: map<TaskId, TaskRow>, now: map<TaskId, TaskRow>, writes: TaskId -> RetryWrites,
                          done: set<TaskId>, completed: set<TaskId>)
    requires PartOfRound(before, now, writes, done)
    ensures PartOfRound(before, Complete(now, completed), writes, done)
  {
  }

  lemma FinishKeepsPart(before: map<TaskId, TaskRow>, now: map<TaskId, TaskRow>, writes: TaskId -> RetryWrites,
                        done: set<TaskId>, task: TaskId)
    requires PartOfRound(before, now, writes, done)
    ensures PartOfRound(before, SetStatus(now, task, Completed), writes, done)
  {
  }

  // The table after one retry, before the row is processed again.
  function AfterRetry(now: map<TaskId, TaskRow>, task: TaskId, w: RetryWrites): map<TaskId, TaskRow> {
    var counted := CountRetry(now, task);
    if !w.countOk then now
    else if task in counted && counted[task].retries >= MAX_RETRY_COUNT && w.deleteOk then counted - {task}
    else counted
  }

  lemma HandleOne(before: map<TaskId, TaskRow>, now: map<TaskId, TaskRow>, writes: TaskId -> RetryWrites,
                  done: set<TaskId>, task: TaskId)
    requires PartOfRound(before, now, writes, done) && task in before && task !in done
    ensures task in now && now[task].retries == before[task].retries
    ensures PartOfRound(before, AfterRetry(now, task, writes(task)), writes, done + {task})
  {
  }

  lemma PartIsRound(before: map<TaskId, TaskRow>, now: map<TaskId, TaskRow>, writes: TaskId -> RetryWrites,
                    done: set<TaskId>)
    requires PartOfRound(before, now, writes, done)
    requires forall t :: t in done <==> t in before && before[t].status == Pending
    ensures Round(before, now, writes)
  {
  }

  // ---------- progress of a round ----------

  // The rounds a pending row still lasts if no call fails.
  function RoundsLeft(row: TaskRow): int {
    if row.retries < MAX_RETRY_COUNT then MAX_RETRY_COUNT - row.retries else 1
  }

  function Remaining(tasks: map<TaskId, TaskRow>): map<TaskId, int> {
    map t | t in tasks && tasks[t].status == Pending :: RoundsLeft(tasks[t])
  }

  // after has lost keys, or lowered their positive values.
  predicate Shrinks(before: map<string, int>, after: map<string, int>) {
    after.Keys <= before.Keys && forall k :: k in before ==> before[k] > 0 && (k in after ==> after[k] <= before[k])
  }

  lemma {:induction false} SumShrinks(before: map<string, int>, after: map<string, int>)
    requires Shrinks(before, after)
    ensures Sum(after) <= Sum(before)
    decreases |before|
  {
    if before != map[] {
      var k :| k in before;
      SumWithout(before, after, k);
      SumShrinks(before - {k}, after - {k});
    } else {
      assert after == map[];
    }
  }

  lemma SumWithout(before: map<string, int>, after: map<string, int>, k: string)
    requires k in before
    ensures Sum(before) == before[k] + Sum(before - {k})
    ensures Sum(after) == (if k in after then after[k] else 0) + Sum(after - {k})
  {
    SumRemove(before, k);
    if k in after {
      SumRemove(after, k);
    } else {
      assert after - {k} == after;
    }
  }

  // A round never adds to the rounds left over all pending rows, and lowers them if the calls for one of the rows
  // succeed.
  lemma RoundMakesProgress(before: map<TaskId, TaskRow>, after: map<TaskId, TaskRow>, writes: TaskId -> RetryWrites)
    requires Round(before, after, writes)
    ensures Sum(Remaining(after)) <= Sum(Remaining(before))
    ensures (exists t :: t in before && before[t].status == Pending && writes(t) == RetryWrites(true, true)) ==>
              Sum(Remaining(after)) < Sum(Remaining(before))
  {
    var b, a := Remaining(before), Remaining(after);
    SumShrinks(b, a);
    if t :| t in before && before[t].status == Pending && writes(t) == RetryWrites(true, true) {
      SumWithout(b, a, t);
      SumShrinks(b - {t}, a - {t});
    }
  }

  // ---------- any number of rounds ----------

  // The rounds of a row in which both calls succeed.
  function Successes(rounds: seq<TaskId -> RetryWrites>, task: TaskId): nat {
    if rounds == [] then 0
    else
      var last := rounds[|rounds| - 1](task);
      Successes(rounds[..|rounds| - 1], task) + if last == RetryWrites(true, true) then 1 else 0
  }

  predicate Rounds(tables: seq<map<TaskId, TaskRow>>, rounds: seq<TaskId -> RetryWrites>) {
    && |tables| == |rounds| + 1
    && forall i {:trigger rounds[i]} :: 0 <= i < |rounds| ==> Round(tables[i], tables[i + 1], rounds[i])
  }

  predicate PendingIn(tasks: map<TaskId, TaskRow>, task: TaskId) { task in tasks && tasks[task].status == Pending }

  // However the calls fail in between: a row that is still pending has seen fewer successful rounds than its count had
  // left to the limit, or none. Otherwise it has been completed or deleted.
  lemma {:induction false} SuccessfulRoundsSettle(tables: seq<map<TaskId, TaskRow>>, rounds: seq<TaskId -> RetryWrites>,
                                                  task: TaskId)
    requires Rounds(tables, rounds) && PendingIn(tables[0], task)
    ensures var last := tables[|rounds|];
            if PendingIn(last, task) then
              && tables[0][task].retries + Successes(rounds, task) <= last[task].retries
              && (Successes(rounds, task) == 0 || tables[0][task].retries + Successes(rounds, task) < 3)
            else task !in last || last[task].status == Completed
    decreases |rounds|
  {
    if rounds != [] {
      var n := |rounds| - 1;
      assert forall i {:trigger rounds[..n][i]} :: 0 <= i < n ==> rounds[..n][i] == rounds[i];
      SuccessfulRoundsSettle(tables[..n + 1], rounds[..n], task);
      assert Round(tables[n], tables[n + 1], rounds[n]);
    }
  }

  // The rounds in which counting succeeds.
  function Counts(rounds: seq<TaskId -> RetryWrites>, task: TaskId): nat {
    if rounds == [] then 0
    else Counts(rounds[..|rounds| - 1], task) + if rounds[|rounds| - 1](task).countOk then 1 else 0
  }

  // And no sooner: below three retries the row is there, and while pending it has been counted in exactly those rounds.
  lemma {:induction false} FewRoundsKeep(tables: seq<map<TaskId, TaskRow>>, rounds: seq<TaskId -> RetryWrites>,
                                         task: TaskId)
    requires Rounds(tables, rounds) && PendingIn(tables[0], task)
    requires tables[0][task].retries + Counts(rounds, task) < 3
    ensures var last := tables[|rounds|];
            && task in last && last[task].retries <= tables[0][task].retries + Counts(rounds, task)
            && (last[task].status == Pending ==>
                  last[task].retries == tables[0][task].retries + Counts(rounds, task))
            && (last[task].status == Pending || last[task].status == Completed)
    decreases |rounds|
  {
    if rounds != [] {
      var n := |rounds| - 1;
      assert forall i {:trigger rounds[..n][i]} :: 0 <= i < n ==> rounds[..n][i] == rounds[i];
      FewRoundsKeep(tables[..n + 1], rounds[..n], task);
      assert Round(tables[n], tables[n + 1], rounds[n]);
    }
  }

  // So three rounds in which the calls for a row succeed complete or delete it.
  lemma ThreeRoundsSettle(tables: seq<map<TaskId, TaskRow>>, rounds: seq<TaskId -> RetryWrites>, task: TaskId)
    requires Rounds(tables, rounds) && PendingIn(tables[0], task) && Successes(rounds, task) >= 3
    ensures task !in tables[|rounds|] || tables[|rounds|][task].status == Completed
  {
    SuccessfulRoundsSettle(tables, rounds, task);
  }
}
