// The machine's goroutines, uninterrupted, do what the processor's code does: whole sequences of lock sections and SQL
// statements end in the states that the methods of the task processor are proved to reach.
module TaskRefinement {
  import opened Basics
  import opened Decimal
  import opened Packing
  import opened KeyOrder
  import opened TaskModel
  import opened TaskMachine
  import opened TaskOutcomes

  // ---------- one goroutine on its own ----------

  // A node without the goroutine, the goroutine (None when it has ended), and what is signed.
  datatype Spot = Spot(n: Node, th: Option<Thread>, signed: SignatureLog)

  ghost function Move(w: World, me: Key, s: Spot, a: Action): Spot {
    match s.th
    case None => s
    case Some(th) =>
      Spot(Apply(s.n, EffectOf(s.n, me, th, a)), Advance(w.(signed := s.signed), s.n, me, th, a),
           s.signed + SignatureOf(w, me, th, a))
  }

  ghost function Moves(w: World, me: Key, s: Spot, actions: seq<Action>): Spot
    decreases |actions|
  {
    if actions == [] then s else Moves(w, me, Move(w, me, s, actions[0]), actions[1..])
  }

  // The world in which the goroutine tid of node me is there.
  function Placed(w: World, me: Key, tid: nat, s: Spot): World {
    w.(signed := s.signed, nodes := w.nodes[me := s.n.(threads := Threads(s.n.threads, tid, s.th))])
  }

  function Acts(me: Key, tid: nat, actions: seq<Action>): seq<Event> {
    if actions == [] then [] else [Local(me, Act(tid, actions[0]))] + Acts(me, tid, actions[1..])
  }

  ghost function After(w: World, events: seq<Event>): World
    decreases |events|
  {
    if events == [] then w else After(WorldStep(w, events[0]), events[1..])
  }

  // A goroutine does not see the others.
  lemma ThreadsDoNotMatter(w: World, n: Node, m: Node, me: Key, th: Thread, a: Action)
    requires m == n.(threads := m.threads)
    ensures Advance(w, m, me, th, a) == Advance(w, n, me, th, a)
  {
    if Receiving(th) {
      assert AdvanceReceiving(w.signed, m, th, a) == AdvanceReceiving(w.signed, n, th, a);
    } else if InCheck(th) {
      assert AdvanceCheck(m, th, a) == AdvanceCheck(n, th, a);
    } else {
      assert AdvanceOwn(w, m, me, th, a) == AdvanceOwn(w, n, me, th, a);
    }
  }

  lemma EffectsDoNotMatter(n: Node, m: Node, me: Key, th: Thread, a: Action)
    requires m == n.(threads := m.threads)
    ensures EffectOf(m, me, th, a) == EffectOf(n, me, th, a)
    ensures Apply(m, EffectOf(m, me, th, a)) == Apply(n, EffectOf(n, me, th, a)).(threads := m.threads)
  {
  }

  // An advance depends on the chains and signatures of the world only.
  lemma NodesDoNotMatter(w: World, v: World, n: Node, me: Key, th: Thread, a: Action)
    requires w.chains == v.chains
    ensures SignatureOf(w, me, th, a) == SignatureOf(v, me, th, a)
    ensures w.signed == v.signed ==> Advance(w, n, me, th, a) == Advance(v, n, me, th, a)
  {
  }

  function Threads(threads: map<nat, Thread>, tid: nat, th: Option<Thread>): map<nat, Thread> {
    if th.Some? then threads[tid := th.value] else threads - {tid}
  }

  lemma ReplacedThread(threads: map<nat, Thread>, tid: nat, th: Thread, after: Option<Thread>)
    ensures Threads(threads[tid := th], tid, after) == Threads(threads, tid, after)
  {
  }

  lemma StepOfThread(v: World, me: Key, tid: nat, th: Thread, a: Action)
    requires me in v.nodes && tid in v.nodes[me].threads && v.nodes[me].threads[tid] == th
    ensures var n := v.nodes[me];
            WorldStep(v, Local(me, Act(tid, a)))
            == v.(nodes := v.nodes[me := Apply(n, EffectOf(n, me, th, a)).(
                    threads := Threads(n.threads, tid, Advance(v, n, me, th, a)))],
                  signed := v.signed + SignatureOf(v, me, th, a))
  {
  }

  lemma StepOfNothing(v: World, me: Key, tid: nat, a: Action)
    requires me in v.nodes && tid !in v.nodes[me].threads
    ensures WorldStep(v, Local(me, Act(tid, a))) == v
  {
    assert v.nodes[me := v.nodes[me]] == v.nodes && v.signed + {} == v.signed;
  }

  lemma MoveIsStep(w: World, me: Key, tid: nat, s: Spot, a: Action)
    ensures WorldStep(Placed(w, me, tid, s), Local(me, Act(tid, a))) == Placed(w, me, tid, Move(w, me, s, a))
  {
    var v := Placed(w, me, tid, s);
    if s.th.Some? {
      RunningMoveIsStep(w, me, tid, s, a);
    } else {
      StepOfNothing(v, me, tid, a);
    }
  }

  lemma MoveParts(w: World, me: Key, tid: nat, s: Spot, a: Action)
    requires s.th.Some?
    ensures var v, th := Placed(w, me, tid, s), s.th.value;
            var m := v.nodes[me];
            && SignatureOf(v, me, th, a) == SignatureOf(w, me, th, a)
            && Advance(v, m, me, th, a) == Advance(w.(signed := s.signed), s.n, me, th, a)
            && Apply(m, EffectOf(m, me, th, a)) == Apply(s.n, EffectOf(s.n, me, th, a)).(threads := m.threads)
  {
    var v, th := Placed(w, me, tid, s), s.th.value;
    ThreadsDoNotMatter(v, s.n, v.nodes[me], me, th, a);
    EffectsDoNotMatter(s.n, v.nodes[me], me, th, a);
    NodesDoNotMatter(v, w.(signed := s.signed), s.n, me, th, a);
    NodesDoNotMatter(v, w, s.n, me, th, a);
  }

  lemma ApplyKeepsThreads(n: Node, e: Effect)
    ensures Apply(n, e).threads == n.threads
  {
  }

  lemma RunningMoveIsStep(w: World, me: Key, tid: nat, s: Spot, a: Action)
    requires s.th.Some?
    ensures WorldStep(Placed(w, me, tid, s), Local(me, Act(tid, a))) == Placed(w, me, tid, Move(w, me, s, a))
  {
    var v, th := Placed(w, me, tid, s), s.th.value;
    var applied := Apply(s.n, EffectOf(s.n, me, th, a));
    var after := Advance(w.(signed := s.signed), s.n, me, th, a);
    var signed := s.signed + SignatureOf(w, me, th, a);
    MoveParts(w, me, tid, s, a);
    StepOfThread(v, me, tid, th, a);
    ReplacedThread(s.n.threads, tid, th, after);
    ApplyKeepsThreads(s.n, EffectOf(s.n, me, th, a));
    PlacedAgain(w, me, v.nodes[me], applied.(threads := Threads(s.n.threads, tid, after)), signed);
  }

  lemma PlacedAgain(w: World, me: Key, m: Node, n: Node, signed: SignatureLog)
    ensures w.nodes[me := m][me := n] == w.nodes[me := n]
  {
  }

  // A sequence of actions is the sequence of its steps.
  lemma {:induction false} MovesAreSteps(w: World, me: Key, tid: nat, s: Spot, actions: seq<Action>)
    ensures After(Placed(w, me, tid, s), Acts(me, tid, actions)) == Placed(w, me, tid, Moves(w, me, s, actions))
    decreases |actions|
  {
    if actions != [] {
      MoveIsStep(w, me, tid, s, actions[0]);
      MovesAreSteps(w, me, tid, Move(w, me, s, actions[0]), actions[1..]);
    }
  }

  lemma {:induction false} MovesAppend(w: World, me: Key, s: Spot, first: seq<Action>, rest: seq<Action>)
    ensures Moves(w, me, s, first + rest) == Moves(w, me, Moves(w, me, s, first), rest)
    decreases |first|
  {
    if first == [] {
      assert first + rest == rest;
    } else {
      MovesAppend(w, me, Move(w, me, s, first[0]), first[1..], rest);
      assert (first + rest)[1..] == first[1..] + rest;
    }
  }

  function Recall(s: Spot): Memory { Memory(s.n.tracker, s.n.records, s.n.tasks, s.signed) }

  function Reminded(s: Spot, m: Memory): Spot
    requires m.tracker == s.n.tracker && m.signed == s.signed
  {
    s.(n := s.n.(records := m.records, tasks := m.tasks))
  }

  // ---------- checkConsensus ----------

  // The moves of a check that goes through.
  lemma SnapshotMove(w: World, me: Key, s: Spot, r: Response, resume: bool, b: nat)
    requires s.th == Some(Checking(r, resume)) && HasResponses(s.n.tracker, r.taskId)
    requires b == s.n.tracker.current[r.taskId]
    ensures Move(w, me, s, Snapshot) == s.(th := Some(Holding(r, resume, b)))
  {
    assert s.signed + {} == s.signed;
  }

  lemma AddUpMove(w: World, me: Key, s: Spot, r: Response, resume: bool, b: nat, weights: map<Key, int>)
    requires s.th == Some(Holding(r, resume, b)) && b < |s.n.tracker.buckets|
    requires weights == s.n.tracker.buckets[b].weights
    ensures Move(w, me, s, AddUp) == s.(th := Some(Summed(r, resume, b, weights)))
  {
    assert s.signed + {} == s.signed;
  }

  lemma CompareMove(w: World, me: Key, s: Spot, r: Response, resume: bool, b: nat, summed: map<Key, int>,
                    threshold: int)
    requires s.th == Some(Summed(r, resume, b, summed)) && s.n.threshold == Some(threshold) && Sum(summed) >= threshold
    ensures Move(w, me, s, Compare) == s.(th := Some(Reached(r, resume, b, summed, threshold)))
  {
    assert s.signed + {} == s.signed;
  }

  lemma CollectMove(w: World, me: Key, s: Spot, r: Response, resume: bool, b: nat, e: Evidence)
    requires s.th == Some(Reached(r, resume, b, e.summed, e.threshold)) && b < |s.n.tracker.buckets|
    requires s.n.tracker.buckets[b].responses == e.responses && e.operators.Keys == e.responses.Keys
    ensures Move(w, me, s, Collect(e.operators)) == s.(th := Some(Collected(r, resume, e)))
  {
    assert s.signed + {} == s.signed;
  }

  // Nothing left to do but what follows the check.
  predicate Over(s: Spot) { s.th.None? || s.th.value.Checked? }

  lemma {:induction false} OverStays(w: World, me: Key, s: Spot, actions: seq<Action>)
    requires Over(s) && CheckOwn !in actions
    ensures Moves(w, me, s, actions) == s
    decreases |actions|
  {
    if actions != [] {
      assert actions[0] in actions && Move(w, me, s, actions[0]) == s;
      OverStays(w, me, s, actions[1..]);
    }
  }

  lemma MarkMoves(w: World, me: Key, s: Spot, r: Response, resume: bool, completeOk: bool)
    requires s.th == Some(Recorded(r, resume))
    ensures Moves(w, me, s, [MarkCompleted(completeOk)])
         == s.(n := s.n.(tasks := if completeOk then SetStatus(s.n.tasks, r.taskId, Completed) else s.n.tasks),
               th := Continue(r, resume))
  {
    var done := Move(w, me, s, MarkCompleted(completeOk));
    assert Moves(w, me, done, []) == done;
  }

  lemma InsertMoves(w: World, me: Key, s: Spot, r: Response, resume: bool, e: Evidence, insertOk: bool,
                    completeOk: bool)
    requires s.th == Some(Collected(r, resume, e))
    ensures Moves(w, me, s, [InsertRecord(insertOk), MarkCompleted(completeOk)])
         == if !Inserts(s.n.records, r, e, insertOk) then s.(th := Continue(r, resume))
            else s.(n := s.n.(records := s.n.records[r.taskId := RecordOf(r, e).value],
                              tasks := if completeOk then SetStatus(s.n.tasks, r.taskId, Completed) else s.n.tasks),
                    th := Continue(r, resume))
  {
    var tail := [MarkCompleted(completeOk)];
    assert [InsertRecord(insertOk), MarkCompleted(completeOk)][1..] == tail;
    var inserted := Move(w, me, s, InsertRecord(insertOk));
    if Inserts(s.n.records, r, e, insertOk) {
      MarkMoves(w, me, inserted, r, resume, completeOk);
    } else {
      OverStays(w, me, inserted, tail);
    }
  }

  lemma CollectMoves(w: World, me: Key, s: Spot, r: Response, resume: bool, b: nat, summed: map<Key, int>,
                     threshold: int, found: map<Key, string>, insertOk: bool, completeOk: bool)
    requires s.th == Some(Reached(r, resume, b, summed, threshold)) && b < |s.n.tracker.buckets|
    ensures var responses := s.n.tracker.buckets[b].responses;
            Moves(w, me, s, [Collect(found), InsertRecord(insertOk), MarkCompleted(completeOk)])
            == if found.Keys != responses.Keys then s.(th := Continue(r, resume))
               else Moves(w, me, s.(th := Some(Collected(r, resume, Evidence(responses, found, summed, threshold)))),
                          [InsertRecord(insertOk), MarkCompleted(completeOk)])
  {
    var tail := [InsertRecord(insertOk), MarkCompleted(completeOk)];
    assert [Collect(found), InsertRecord(insertOk), MarkCompleted(completeOk)][1..] == tail;
    var collected := Move(w, me, s, Collect(found));
    if found.Keys != s.n.tracker.buckets[b].responses.Keys {
      OverStays(w, me, collected, tail);
    }
  }

  lemma CompareMoves(w: World, me: Key, s: Spot, r: Response, resume: bool, b: nat, summed: map<Key, int>,
                     found: map<Key, string>, insertOk: bool, completeOk: bool)
    requires s.th == Some(Summed(r, resume, b, summed))
    ensures Moves(w, me, s, [Compare, Collect(found), InsertRecord(insertOk), MarkCompleted(completeOk)])
         == if s.n.threshold.None? then s.(th := None)
            else if Sum(summed) < s.n.threshold.value then s.(th := Continue(r, resume))
            else Moves(w, me, s.(th := Some(Reached(r, resume, b, summed, s.n.threshold.value))),
                       [Collect(found), InsertRecord(insertOk), MarkCompleted(completeOk)])
  {
    var tail := [Collect(found), InsertRecord(insertOk), MarkCompleted(completeOk)];
    assert [Compare, Collect(found), InsertRecord(insertOk), MarkCompleted(completeOk)][1..] == tail;
    if s.n.threshold.None? || Sum(summed) < s.n.threshold.value {
      OverStays(w, me, Move(w, me, s, Compare), tail);
    }
  }

  // The six actions of a check, in order.
  function CheckActions(found: map<Key, string>, insertOk: bool, completeOk: bool): seq<Action> {
    [Snapshot] + ([AddUp] + [Compare, Collect(found), InsertRecord(insertOk), MarkCompleted(completeOk)])
  }

  lemma SnapshotMoves(w: World, me: Key, s: Spot, r: Response, resume: bool, rest: seq<Action>)
    requires s.th == Some(Checking(r, resume)) && CheckOwn !in rest
    ensures Moves(w, me, s, [Snapshot] + ([AddUp] + rest))
         == if !HasResponses(s.n.tracker, r.taskId) then s.(th := Continue(r, resume))
            else var b := s.n.tracker.current[r.taskId];
                 Moves(w, me, s.(th := Some(Summed(r, resume, b, s.n.tracker.buckets[b].weights))), rest)
  {
    var held := Move(w, me, s, Snapshot);
    assert ([Snapshot] + ([AddUp] + rest))[1..] == [AddUp] + rest;
    if !HasResponses(s.n.tracker, r.taskId) {
      OverStays(w, me, held, [AddUp] + rest);
    } else {
      var b := s.n.tracker.current[r.taskId];
      SnapshotMove(w, me, s, r, resume, b);
      AddUpMove(w, me, held, r, resume, b, s.n.tracker.buckets[b].weights);
      assert ([AddUp] + rest)[1..] == rest;
    }
  }

  // The operators of a task's responders, as far as they are known.
  function Known(t: Tracker, task: TaskId, operators: map<Key, string>): map<Key, string> {
    if task in t.current
    then map k | k in operators && k in t.buckets[t.current[task]].responses :: operators[k]
    else map[]
  }

  // Where a check leaves the goroutine: without a threshold it is gone; tables change only past the threshold, with
  // every operator known and a record that may be inserted.
  ghost function CheckEnd(s: Spot, r: Response, resume: bool, operators: map<Key, string>, insertOk: bool,
                          completeOk: bool): Spot
  {
    if !HasResponses(s.n.tracker, r.taskId) then s.(th := Continue(r, resume))
    else if s.n.threshold.None? then s.(th := None)
    else
      var e := EvidenceNow(s.n.tracker, r.taskId, operators, s.n.threshold.value);
      if Sum(e.summed) < e.threshold || !(e.responses.Keys <= operators.Keys) || !Inserts(s.n.records, r, e, insertOk)
      then s.(th := Continue(r, resume))
      else s.(n := s.n.(records := s.n.records[r.taskId := RecordOf(r, e).value],
                        tasks := if completeOk then SetStatus(s.n.tasks, r.taskId, Completed) else s.n.tasks),
              th := Continue(r, resume))
  }

  // What follows a check of the code: nothing when it panics.
  ghost function AfterCheck(s: Spot, r: Response, resume: bool): Option<Thread> {
    if HasResponses(s.n.tracker, r.taskId) && s.n.threshold.None? then None else Continue(r, resume)
  }

  lemma CheckEndIsResult(s: Spot, r: Response, resume: bool, operators: map<Key, string>, insertOk: bool,
                         completeOk: bool)
    ensures CheckEnd(s, r, resume, operators, insertOk, completeOk)
         == Reminded(s, CheckResult(Recall(s), s.n.threshold, r, operators, insertOk, completeOk)).(
              th := AfterCheck(s, r, resume))
  {
  }

  lemma SummedMoves(w: World, me: Key, s: Spot, r: Response, resume: bool, b: nat, e: Evidence, insertOk: bool,
                    completeOk: bool)
    requires s.th == Some(Summed(r, resume, b, e.summed)) && b < |s.n.tracker.buckets|
    requires e.responses == s.n.tracker.buckets[b].responses && s.n.threshold == Some(e.threshold)
    ensures Moves(w, me, s, [Compare, Collect(e.operators), InsertRecord(insertOk), MarkCompleted(completeOk)])
         == if Sum(e.summed) < e.threshold || e.operators.Keys != e.responses.Keys
            then s.(th := Continue(r, resume))
            else Moves(w, me, s.(th := Some(Collected(r, resume, e))),
                       [InsertRecord(insertOk), MarkCompleted(completeOk)])
  {
    CompareMoves(w, me, s, r, resume, b, e.summed, e.operators, insertOk, completeOk);
    if Sum(e.summed) >= e.threshold {
      var reached := s.(th := Some(Reached(r, resume, b, e.summed, e.threshold)));
      CollectMoves(w, me, reached, r, resume, b, e.summed, e.threshold, e.operators, insertOk, completeOk);
    }
  }

  lemma CheckMoves(w: World, me: Key, s: Spot, r: Response, resume: bool, operators: map<Key, string>, insertOk: bool,
                   completeOk: bool)
    requires s.th == Some(Checking(r, resume))
    ensures Moves(w, me, s, CheckActions(Known(s.n.tracker, r.taskId, operators), insertOk, completeOk))
         == CheckEnd(s, r, resume, operators, insertOk, completeOk)
  {
    var t, found := s.n.tracker, Known(s.n.tracker, r.taskId, operators);
    SnapshotMoves(w, me, s, r, resume, [Compare, Collect(found), InsertRecord(insertOk), MarkCompleted(completeOk)]);
    if HasResponses(t, r.taskId) {
      var b := t.current[r.taskId];
      var summed := s.(th := Some(Summed(r, resume, b, t.buckets[b].weights)));
      CompareMoves(w, me, summed, r, resume, b, t.buckets[b].weights, found, insertOk, completeOk);
      if s.n.threshold.Some? {
        WeighedMoves(w, me, s, r, resume, operators, insertOk, completeOk);
      }
    }
  }

  // From the weights on, with a threshold.
  lemma WeighedMoves(w: World, me: Key, s: Spot, r: Response, resume: bool, operators: map<Key, string>, insertOk: bool,
                     completeOk: bool)
    requires HasResponses(s.n.tracker, r.taskId) && s.n.threshold.Some?
    ensures var b := s.n.tracker.current[r.taskId];
            var summed := s.(th := Some(Summed(r, resume, b, s.n.tracker.buckets[b].weights)));
            var found := Known(s.n.tracker, r.taskId, operators);
            Moves(w, me, summed, [Compare, Collect(found), InsertRecord(insertOk), MarkCompleted(completeOk)])
            == CheckEnd(s, r, resume, operators, insertOk, completeOk)
  {
    var t, b := s.n.tracker, s.n.tracker.current[r.taskId];
    var e := EvidenceNow(t, r.taskId, operators, s.n.threshold.value);
    assert e.operators == Known(t, r.taskId, operators);
    SummedMoves(w, me, s.(th := Some(Summed(r, resume, b, e.summed))), r, resume, b, e, insertOk, completeOk);
    InsertMoves(w, me, s.(th := Some(Collected(r, resume, e))), r, resume, e, insertOk, completeOk);
  }

  // However it ends, an uninterrupted check ends as the code's does.
  lemma CheckRefines(w: World, me: Key, s: Spot, r: Response, resume: bool, operators: map<Key, string>, insertOk: bool,
                     completeOk: bool)
    requires s.th == Some(Checking(r, resume))
    ensures Moves(w, me, s, CheckActions(Known(s.n.tracker, r.taskId, operators), insertOk, completeOk))
         == Reminded(s, CheckResult(Recall(s), s.n.threshold, r, operators, insertOk, completeOk)).(
              th := AfterCheck(s, r, resume))
  {
    CheckMoves(w, me, s, r, resume, operators, insertOk, completeOk);
    CheckEndIsResult(s, r, resume, operators, insertOk, completeOk);
  }

  // ---------- processResponse ----------

  lemma {:induction false} GoneStays(w: World, me: Key, s: Spot, actions: seq<Action>)
    requires s.th.None?
    ensures Moves(w, me, s, actions) == s
    decreases |actions|
  {
    if actions != [] {
      GoneStays(w, me, s, actions[1..]);
    }
  }

  lemma OneMove(w: World, me: Key, s: Spot, a: Action, rest: seq<Action>)
    ensures Moves(w, me, s, [a] + rest) == Moves(w, me, Move(w, me, s, a), rest)
  {
    assert ([a] + rest)[1..] == rest;
  }

  function ReceiveActions(rest: seq<Action>): seq<Action> {
    [CheckTracked] + ([LookForRecord(false)] + ([Verify] + ([StoreResponse] + rest)))
  }

  lemma KeepMoves(w: World, me: Key, s: Spot, r: Response, key: Key, weight: int, rest: seq<Action>)
    requires s.th == Some(Verified(r, key, weight))
    ensures Moves(w, me, s, [StoreResponse] + rest)
         == Moves(w, me, s.(n := s.n.(tracker := Store(s.n.tracker, r, key, weight)), th := Some(Checking(r, true))),
                  rest)
  {
    OneMove(w, me, s, StoreResponse, rest);
  }

  lemma VerifiedMoves(w: World, me: Key, s: Spot, r: Response, key: Key, numeric: Numeric, rest: seq<Action>)
    requires s.th == Some(Unrecorded(r, key, numeric))
    ensures Moves(w, me, s, [Verify] + ([StoreResponse] + rest))
         == if Verifies(s.signed, r, key) && NumericToBigInt(numeric).Ok?
            then Moves(w, me, s.(n := s.n.(tracker := Store(s.n.tracker, r, key, NumericToBigInt(numeric).value)),
                                 th := Some(Checking(r, true))), rest)
            else s.(th := None)
  {
    var verified := Move(w, me, s, Verify);
    OneMove(w, me, s, Verify, [StoreResponse] + rest);
    if verified.th.None? {
      GoneStays(w, me, verified, [StoreResponse] + rest);
    } else {
      KeepMoves(w, me, verified, r, key, NumericToBigInt(numeric).value, rest);
    }
  }

  // What the gates let through is stored, and the goroutine goes on to the check; everything else ends it.
  lemma ReceiveMoves(w: World, me: Key, s: Spot, r: Response, key: Key, numeric: Numeric, rest: seq<Action>)
    requires s.th == Some(Received(r, key, numeric))
    ensures Moves(w, me, s, ReceiveActions(rest))
         == if Acceptable(Recall(s), r, key, numeric)
            then Moves(w, me, s.(n := s.n.(tracker := Store(s.n.tracker, r, key, NumericToBigInt(numeric).value)),
                                 th := Some(Checking(r, true))), rest)
            else s.(th := None)
  {
    var tail := [Verify] + ([StoreResponse] + rest);
    var untracked := Move(w, me, s, CheckTracked);
    OneMove(w, me, s, CheckTracked, [LookForRecord(false)] + tail);
    if untracked.th.None? {
      GoneStays(w, me, untracked, [LookForRecord(false)] + tail);
    } else {
      var unrecorded := Move(w, me, untracked, LookForRecord(false));
      OneMove(w, me, untracked, LookForRecord(false), tail);
      if unrecorded.th.None? {
        GoneStays(w, me, unrecorded, tail);
      } else {
        VerifiedMoves(w, me, unrecorded, r, key, numeric, rest);
      }
    }
  }

  // ---------- ProcessTask ----------

  function AnswerActions(fetched: Option<nat>, c: ProcessCalls, rest: seq<Action>): seq<Action> {
    [Start] + ([Sign(fetched, c.bytes)] + ([StoreOwn(c.weight)] + ([Publish(c.publishOk)] + rest)))
  }

  function WithOwn(n: Node, me: Key, own: Response, weight: int): Node {
    n.(tracker := Store(n.tracker, own, me, weight))
  }

  function WithSent(n: Node, own: Response): Node {
    n.(sent := n.sent + {own})
  }

  lemma StoreOwnMoves(w: World, me: Key, s: Spot, own: Response, weight: Option<Numeric>, rest: seq<Action>)
    requires s.th == Some(Signed(own))
    ensures Moves(w, me, s, [StoreOwn(weight)] + rest)
         == if !Weighs(weight) then s.(th := None)
            else Moves(w, me,
                       s.(n := WithOwn(s.n, me, own, NumericToBigInt(weight.value).value), th := Some(Stored(own))),
                       rest)
  {
    var stored := Move(w, me, s, StoreOwn(weight));
    OneMove(w, me, s, StoreOwn(weight), rest);
    if stored.th.None? {
      GoneStays(w, me, stored, rest);
    }
  }

  lemma PublishMoves(w: World, me: Key, s: Spot, own: Response, publishOk: bool, rest: seq<Action>)
    requires s.th == Some(Stored(own))
    ensures Moves(w, me, s, [Publish(publishOk)] + rest)
         == if !publishOk then s.(th := None)
            else Moves(w, me, s.(n := WithSent(s.n, own), th := Some(Checking(own, false))), rest)
  {
    var published := Move(w, me, s, Publish(publishOk));
    OneMove(w, me, s, Publish(publishOk), rest);
    if published.th.None? {
      GoneStays(w, me, published, rest);
    }
  }

  // What the attempts of getStateWithRetries come to.
  function Fetched(attempts: nat -> Attempt, block: nat): Option<nat> {
    match StateRead(attempts, block, 0)
    case Ok(v) => Some(v)
    case Err(_) => None
  }

  lemma StartMove(w: World, me: Key, s: Spot, q: Request)
    requires s.th == Some(Requested(q))
    ensures Move(w, me, s, Start) == s.(th := if Tracked(s.n.tracker, q.taskId, me) then None else Some(Processing(q)))
  {
    assert AdvanceOwn(w.(signed := s.signed), s.n, me, Requested(q), Start)
        == if Tracked(s.n.tracker, q.taskId, me) then None else Some(Processing(q));
    assert EffectOf(s.n, me, Requested(q), Start) == Quiet && s.signed + {} == s.signed;
  }

  lemma StartMoves(w: World, me: Key, s: Spot, q: Request, rest: seq<Action>)
    requires s.th == Some(Requested(q))
    ensures Moves(w, me, s, [Start] + rest)
         == if Tracked(s.n.tracker, q.taskId, me) then s.(th := None)
            else Moves(w, me, s.(th := Some(Processing(q))), rest)
  {
    StartMove(w, me, s, q);
    OneMove(w, me, s, Start, rest);
    if Tracked(s.n.tracker, q.taskId, me) {
      GoneStays(w, me, s.(th := None), rest);
    }
  }

  lemma SignMove(w: World, me: Key, s: Spot, q: Request, fetched: Option<nat>, bytes: Bytes)
    requires s.th == Some(Processing(q)) && Answers(w.chains, q, fetched)
    ensures Move(w, me, s, Sign(fetched, bytes))
         == if !Signs(q, fetched) then s.(th := None)
            else s.(signed := s.signed + {Signature(me, Pack(RequestParams(q).value), bytes)},
                    th := Some(Signed(OwnResponse(q, fetched.value, bytes))))
  {
  }

  lemma SignMoves(w: World, me: Key, s: Spot, q: Request, c: ProcessCalls, rest: seq<Action>)
    requires s.th == Some(Processing(q)) && Answers(w.chains, q, Fetched(c.attempts, q.block))
    ensures Moves(w, me, s, [Sign(Fetched(c.attempts, q.block), c.bytes)] + rest)
         == if !ReadsClaim(q, c.attempts) then s.(th := None)
            else Moves(w, me, s.(signed := s.signed + {Signature(me, Pack(RequestParams(q).value), c.bytes)},
                                 th := Some(Signed(OwnAnswer(q, c)))), rest)
  {
    var fetched := Fetched(c.attempts, q.block);
    SignMove(w, me, s, q, fetched, c.bytes);
    OneMove(w, me, s, Sign(fetched, c.bytes), rest);
    if !ReadsClaim(q, c.attempts) {
      GoneStays(w, me, s.(th := None), rest);
    }
  }

  // Where an answering goroutine is when it starts its check, or ends before.
  function Answered(s: Spot, me: Key, q: Request, c: ProcessCalls): Spot {
    if Tracked(s.n.tracker, q.taskId, me) || !ReadsClaim(q, c.attempts) then s.(th := None)
    else
      var own, signed := OwnAnswer(q, c), s.signed + {Signature(me, Pack(RequestParams(q).value), c.bytes)};
      if !Weighs(c.weight) then s.(th := None, signed := signed)
      else
        var stored := WithOwn(s.n, me, own, NumericToBigInt(c.weight.value).value);
        if !c.publishOk then Spot(stored, None, signed)
        else Spot(WithSent(stored, own), Some(Checking(own, false)), signed)
  }

  lemma AnswerMoves(w: World, me: Key, s: Spot, q: Request, c: ProcessCalls, rest: seq<Action>)
    requires s.th == Some(Requested(q)) && Answers(w.chains, q, Fetched(c.attempts, q.block))
    ensures Moves(w, me, s, AnswerActions(Fetched(c.attempts, q.block), c, rest))
         == Moves(w, me, Answered(s, me, q, c), rest)
  {
    var publish := [Publish(c.publishOk)] + rest;
    var store := [StoreOwn(c.weight)] + publish;
    StartMoves(w, me, s, q, [Sign(Fetched(c.attempts, q.block), c.bytes)] + store);
    if !Tracked(s.n.tracker, q.taskId, me) {
      SignMoves(w, me, s.(th := Some(Processing(q))), q, c, store);
      if ReadsClaim(q, c.attempts) {
        var own := OwnAnswer(q, c);
        var signed := Spot(s.n, Some(Signed(own)), s.signed + {Signature(me, Pack(RequestParams(q).value), c.bytes)});
        StoreOwnMoves(w, me, signed, own, c.weight, publish);
        if Weighs(c.weight) {
          var n := WithOwn(s.n, me, own, NumericToBigInt(c.weight.value).value);
          PublishMoves(w, me, Spot(n, Some(Stored(own)), signed.signed), own, c.publishOk, rest);
        }
      }
    }
    if Answered(s, me, q, c).th.None? {
      GoneStays(w, me, Answered(s, me, q, c), rest);
    }
  }

  lemma AnsweredGone(s: Spot, me: Key, q: Request, c: ProcessCalls)
    requires Answered(s, me, q, c).th.None?
    ensures var a := Answered(s, me, q, c);
            Recall(a) == AnswerResult(Recall(s), me, s.n.threshold, q, c) && a.n.sent == s.n.sent
  {
  }

  lemma AnsweredChecks(s: Spot, me: Key, q: Request, c: ProcessCalls)
    requires Answered(s, me, q, c).th.Some?
    ensures ReadsClaim(q, c.attempts) && Gates(q, c) && c.publishOk && !Tracked(s.n.tracker, q.taskId, me)
    ensures var a := Answered(s, me, q, c);
            && a.n.threshold == s.n.threshold
            && a.th == Some(Checking(OwnAnswer(q, c), false)) && a.n.sent == s.n.sent + {OwnAnswer(q, c)}
            && AnswerResult(Recall(s), me, s.n.threshold, q, c)
               == CheckResult(Recall(a), s.n.threshold, OwnAnswer(q, c), c.operators, c.insertOk, c.completeOk)
  {
  }

  // The actions of ProcessTask with its check, given the chain's answer and the operators known.
  function AnswerAndCheck(s: Spot, me: Key, q: Request, c: ProcessCalls): seq<Action> {
    AnswerActions(Fetched(c.attempts, q.block), c,
                  CheckActions(Known(Answered(s, me, q, c).n.tracker, q.taskId, c.operators), c.insertOk, c.completeOk))
  }

  // An uninterrupted answer signs, stores, records and sends what the code does, and then ends.
  lemma AnswerRefines(w: World, me: Key, s: Spot, q: Request, c: ProcessCalls)
    requires s.th == Some(Requested(q)) && Answers(w.chains, q, Fetched(c.attempts, q.block))
    ensures var end := Moves(w, me, s, AnswerAndCheck(s, me, q, c));
            && Recall(end) == AnswerResult(Recall(s), me, s.n.threshold, q, c) && end.th.None?
            && end.n.sent == s.n.sent + (if !Tracked(s.n.tracker, q.taskId, me) && Gates(q, c) && c.publishOk
                                         then {OwnAnswer(q, c)} else {})
  {
    var a := Answered(s, me, q, c);
    var check := CheckActions(Known(a.n.tracker, q.taskId, c.operators), c.insertOk, c.completeOk);
    AnswerMoves(w, me, s, q, c, check);
    if a.th.None? {
      AnsweredGone(s, me, q, c);
      GoneStays(w, me, a, check);
    } else {
      AnsweredChecks(s, me, q, c);
      CheckRefines(w, me, a, OwnAnswer(q, c), false, c.operators, c.insertOk, c.completeOk);
    }
  }

  // ---------- the whole handler ----------

  lemma AskMoves(w: World, me: Key, s: Spot, r: Response, rest: seq<Action>)
    requires s.th == Some(Checked(r))
    ensures Moves(w, me, s, [CheckOwn] + rest)
         == if Tracked(s.n.tracker, r.taskId, me) then s.(th := None)
            else Moves(w, me, s.(th := Some(Requested(RequestOf(r)))), rest)
  {
    var asked := Move(w, me, s, CheckOwn);
    OneMove(w, me, s, CheckOwn, rest);
    if asked.th.None? {
      GoneStays(w, me, asked, rest);
    }
  }

  function StoredTracker(t: Tracker, r: Response, key: Key, numeric: Numeric): Tracker {
    if NumericToBigInt(numeric).Ok? then Store(t, r, key, NumericToBigInt(numeric).value) else t
  }

  // The actions of a receiving goroutine up to the end of its check, given the operators known.
  function AcceptActions(t: Tracker, r: Response, key: Key, numeric: Numeric, operators: map<Key, string>,
                         insertOk: bool, completeOk: bool): seq<Action>
  {
    ReceiveActions(CheckActions(Known(StoredTracker(t, r, key, numeric), r.taskId, operators), insertOk, completeOk))
  }

  // An uninterrupted receipt keeps what the code accepts and checks it as the code does.
  lemma AcceptRefines(w: World, me: Key, s: Spot, r: Response, key: Key, numeric: Numeric, operators: map<Key, string>,
                      insertOk: bool, completeOk: bool)
    requires s.th == Some(Received(r, key, numeric))
    ensures var end := Moves(w, me, s, AcceptActions(s.n.tracker, r, key, numeric, operators, insertOk, completeOk));
            && Recall(end) == AcceptResult(Recall(s), s.n.threshold, r, key, numeric, operators, insertOk, completeOk)
            && end.th == (if Acceptable(Recall(s), r, key, numeric) && s.n.threshold.Some? then Some(Checked(r))
                          else None)
            && end.n.threshold == s.n.threshold && end.n.sent == s.n.sent
  {
    var check := CheckActions(Known(StoredTracker(s.n.tracker, r, key, numeric), r.taskId, operators), insertOk,
                              completeOk);
    ReceiveMoves(w, me, s, r, key, numeric, check);
    if Acceptable(Recall(s), r, key, numeric) {
      var stored := s.(n := s.n.(tracker := Store(s.n.tracker, r, key, NumericToBigInt(numeric).value)),
                       th := Some(Checking(r, true)));
      StoreGivesResponses(s.n.tracker, r, key, NumericToBigInt(numeric).value);
      CheckRefines(w, me, stored, r, true, operators, insertOk, completeOk);
    }
  }

  // The same from arrival to the end: an accepted response is answered unless this node has answered, and then the
  // goroutine is gone.
  lemma ResponseRefines(w: World, me: Key, s: Spot, r: Response, key: Key, numeric: Numeric,
                        operators: map<Key, string>, insertOk: bool, completeOk: bool, own: ProcessCalls)
    requires s.th == Some(Received(r, key, numeric)) && Answers(w.chains, RequestOf(r), Fetched(own.attempts, r.block))
    ensures var accept := AcceptActions(s.n.tracker, r, key, numeric, operators, insertOk, completeOk);
            var asked := Moves(w, me, s, accept).(th := Some(Requested(RequestOf(r))));
            var end := Moves(w, me, s, accept + ([CheckOwn] + AnswerAndCheck(asked, me, RequestOf(r), own)));
            && Recall(end)
               == ResponseResult(Recall(s), me, s.n.threshold, r, key, numeric, operators, insertOk, completeOk, own)
            && end.th.None?
  {
    var accept := AcceptActions(s.n.tracker, r, key, numeric, operators, insertOk, completeOk);
    var accepted := Moves(w, me, s, accept);
    var asked := accepted.(th := Some(Requested(RequestOf(r))));
    var rest := AnswerAndCheck(asked, me, RequestOf(r), own);
    AcceptRefines(w, me, s, r, key, numeric, operators, insertOk, completeOk);
    MovesAppend(w, me, s, accept, [CheckOwn] + rest);
    if accepted.th.None? {
      GoneStays(w, me, accepted, [CheckOwn] + rest);
    } else {
      AskMoves(w, me, accepted, r, rest);
      if !Tracked(accepted.n.tracker, r.taskId, me) {
        AnswerRefines(w, me, asked, RequestOf(r), own);
      }
    }
  }
}
