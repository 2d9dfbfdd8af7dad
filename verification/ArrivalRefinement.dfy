// The machine's steps for an arriving response and for a request, with the goroutine they start, do what the code does
// from the sender's row, and from the inserted row, to the end (pkg/operator/task/response.go,
// pkg/operator/api/handlers.go).
module ArrivalRefinement {
  import opened Basics
  import opened TaskModel
  import opened TaskMachine
  import opened TaskOutcomes
  import opened TaskRefinement
  import opened PollRefinement

  // ---------- responses ----------

  // The goroutine of a response that passes the lookup of its sender.
  function Arrived(n: Node, m: Message, sender: Sender, signed: SignatureLog): Spot {
    Spot(n, Some(Received(ConvertProtoToResponse(m), sender.key, sender.weight)), signed)
  }

  // The machine and the handler let the same senders in.
  lemma DeliverMove(w: World, me: Key, tid: nat, m: Message, sender: Option<Sender>)
    requires me in w.nodes && tid !in w.nodes[me].threads
    ensures var n := w.nodes[me];
            WorldStep(w, Local(me, Deliver(tid, m, sender)))
            == if m.msgEpoch == n.epoch && sender.Some? && sender.value.active
               then Placed(w, me, tid, Arrived(n, m, sender.value, w.signed)) else w
  {
    assert w.signed + {} == w.signed;
    assert w.nodes[me := w.nodes[me]] == w.nodes;
  }

  // The actions of the goroutine, from the first gate to the end of its own answer.
  ghost function ReceiptActions(w: World, me: Key, s: Spot, m: Message, sender: Sender, operators: map<Key, string>,
                                insertOk: bool, completeOk: bool, own: ProcessCalls): seq<Action>
  {
    var r := ConvertProtoToResponse(m);
    var accept := AcceptActions(s.n.tracker, r, sender.key, sender.weight, operators, insertOk, completeOk);
    var asked := Moves(w, me, s, accept).(th := Some(Requested(RequestOf(r))));
    accept + ([CheckOwn] + AnswerAndCheck(asked, me, RequestOf(r), own))
  }

  ghost function DeliveryActions(w: World, me: Key, n: Node, m: Message, sender: Option<Sender>,
                                 operators: map<Key, string>, insertOk: bool, completeOk: bool, own: ProcessCalls):
    seq<Action>
  {
    if sender.None? then []
    else ReceiptActions(w, me, Arrived(n, m, sender.value, w.signed), m, sender.value, operators, insertOk, completeOk,
                        own)
  }

  // From the message on: whoever sent it, and whatever comes of the calls, the machine leaves what the handler leaves.
  lemma DeliveryRefines(w: World, me: Key, tid: nat, m: Message, sender: Option<Sender>, operators: map<Key, string>,
                        insertOk: bool, completeOk: bool, own: ProcessCalls)
    requires me in w.nodes && tid !in w.nodes[me].threads
    requires Answers(w.chains, RequestOf(ConvertProtoToResponse(m)), Fetched(own.attempts, m.blockNumber))
    ensures var n := w.nodes[me];
            var actions := DeliveryActions(w, me, n, m, sender, operators, insertOk, completeOk, own);
            var end := After(WorldStep(w, Local(me, Deliver(tid, m, sender))), Acts(me, tid, actions));
            && me in end.nodes && Otherwise(n, end.nodes[me])
            && Remembered(end, me) == ReceiptResult(Remembered(w, me), n.epoch, me, n.threshold, m, sender, operators,
                                                    insertOk, completeOk, own)
  {
    var n := w.nodes[me];
    var actions := DeliveryActions(w, me, n, m, sender, operators, insertOk, completeOk, own);
    DeliverMove(w, me, tid, m, sender);
    if m.msgEpoch == n.epoch && sender.Some? && sender.value.active {
      ArrivedRefines(w, me, tid, n, m, sender.value, operators, insertOk, completeOk, own);
    } else {
      NobodyActs(w, me, tid, actions);
    }
  }

  lemma ArrivedRefines(w: World, me: Key, tid: nat, n: Node, m: Message, sender: Sender, operators: map<Key, string>,
                       insertOk: bool, completeOk: bool, own: ProcessCalls)
    requires me in w.nodes && tid !in n.threads
    requires Answers(w.chains, RequestOf(ConvertProtoToResponse(m)), Fetched(own.attempts, m.blockNumber))
    ensures var s := Arrived(n, m, sender, w.signed);
            var actions := ReceiptActions(w, me, s, m, sender, operators, insertOk, completeOk, own);
            var end := After(Placed(w, me, tid, s), Acts(me, tid, actions));
            && me in end.nodes && Otherwise(n, end.nodes[me])
            && Remembered(end, me) == ResponseResult(Recall(s), me, n.threshold, ConvertProtoToResponse(m), sender.key,
                                                     sender.weight, operators, insertOk, completeOk, own)
  {
    var s := Arrived(n, m, sender, w.signed);
    var actions := ReceiptActions(w, me, s, m, sender, operators, insertOk, completeOk, own);
    ResponseRefines(w, me, s, ConvertProtoToResponse(m), sender.key, sender.weight, operators, insertOk, completeOk,
                    own);
    MovesAreSteps(w, me, tid, s, actions);
    MovesKeepLoops(w, me, s, actions);
    GoneIsPlaced(w, me, tid, Moves(w, me, s, actions));
  }

  // ---------- requests ----------

  function Asking(n: Node, task: TaskId, row: TaskRow, signed: SignatureLog): Spot {
    Spot(n, Some(Creating(task, row)), signed)
  }

  // A request brings a row that is pending exactly if its block is confirmed at the head read.
  lemma AskMove(w: World, me: Key, tid: nat, task: TaskId, row: TaskRow, head: nat)
    requires me in w.nodes && tid !in w.nodes[me].threads && Exists(w.chains, row.chainId, head)
    ensures var decided := row.(status := if head >= row.block + row.required then Pending else Confirming,
                                retries := 0);
            WorldStep(w, Local(me, Ask(tid, task, row, head)))
            == Placed(w, me, tid, Asking(w.nodes[me], task, decided, w.signed))
  {
    assert w.signed + {} == w.signed;
  }

  function WithRow(n: Node, task: TaskId, row: TaskRow): Node { n.(tasks := n.tasks[task := row]) }

  lemma CreateMove(w: World, me: Key, s: Spot, task: TaskId, row: TaskRow, ok: bool)
    requires s.th == Some(Creating(task, row)) && task !in s.n.tasks
    ensures var q := RowRequest(task, row);
            Move(w, me, s, CreateRow(ok, q))
            == if !ok then s.(th := None)
               else s.(n := WithRow(s.n, task, row), th := if row.status == Pending then Some(Requested(q)) else None)
  {
    RowRequestReads(task, row);
    assert s.signed + {} == s.signed;
  }

  lemma CreateMoves(w: World, me: Key, s: Spot, task: TaskId, row: TaskRow, ok: bool, rest: seq<Action>)
    requires s.th == Some(Creating(task, row)) && task !in s.n.tasks
    ensures Moves(w, me, s, [CreateRow(ok, RowRequest(task, row))] + rest)
         == if !ok then s.(th := None)
            else if row.status != Pending then s.(n := WithRow(s.n, task, row), th := None)
            else Moves(w, me, s.(n := WithRow(s.n, task, row), th := Some(Requested(RowRequest(task, row)))), rest)
  {
    var q := RowRequest(task, row);
    CreateMove(w, me, s, task, row, ok);
    OneMove(w, me, s, CreateRow(ok, q), rest);
    var created := Move(w, me, s, CreateRow(ok, q));
    if created.th.None? {
      GoneStays(w, me, created, rest);
    }
  }

  // The insert and, for a pending row, the answer.
  function CreateActions(me: Key, s: Spot, task: TaskId, row: TaskRow, ok: bool, c: ProcessCalls): seq<Action> {
    var q := RowRequest(task, row);
    [CreateRow(ok, q)] + AnswerAndCheck(Spot(WithRow(s.n, task, row), Some(Requested(q)), s.signed), me, q, c)
  }

  lemma CreationRefines(w: World, me: Key, s: Spot, task: TaskId, row: TaskRow, ok: bool, c: ProcessCalls)
    requires s.th == Some(Creating(task, row)) && task !in s.n.tasks
    requires Answers(w.chains, RowRequest(task, row), Fetched(c.attempts, row.block))
    ensures var end := Moves(w, me, s, CreateActions(me, s, task, row, ok, c));
            && end.th.None?
            && Recall(end) == if ok then CreateResult(Recall(s), me, s.n.threshold, task, row, c) else Recall(s)
  {
    var q := RowRequest(task, row);
    var asked := Spot(WithRow(s.n, task, row), Some(Requested(q)), s.signed);
    CreateMoves(w, me, s, task, row, ok, AnswerAndCheck(asked, me, q, c));
    if ok && row.status == Pending {
      AnswerRefines(w, me, asked, q, c);
    }
  }

  // A new request, whatever comes of the insert: the row is pending exactly if its block is confirmed at the head read,
  // and a pending row is answered as the handler answers it.
  lemma RequestRefines(w: World, me: Key, tid: nat, task: TaskId, row: TaskRow, head: nat, ok: bool, c: ProcessCalls)
    requires me in w.nodes && tid !in w.nodes[me].threads && task !in w.nodes[me].tasks
    requires Exists(w.chains, row.chainId, head)
    requires Answers(w.chains, RowRequest(task, row), Fetched(c.attempts, row.block))
    ensures var n := w.nodes[me];
            var decided := row.(status := if head >= row.block + row.required then Pending else Confirming,
                                retries := 0);
            var actions := CreateActions(me, Asking(n, task, decided, w.signed), task, decided, ok, c);
            var end := After(WorldStep(w, Local(me, Ask(tid, task, row, head))), Acts(me, tid, actions));
            && me in end.nodes && Otherwise(n, end.nodes[me])
            && Remembered(end, me) == if ok then CreateResult(Remembered(w, me), me, n.threshold, task, decided, c)
                                      else Remembered(w, me)
  {
    var n := w.nodes[me];
    var decided := row.(status := if head >= row.block + row.required then Pending else Confirming, retries := 0);
    var s := Asking(n, task, decided, w.signed);
    var actions := CreateActions(me, s, task, decided, ok, c);
    AskMove(w, me, tid, task, row, head);
    CreationRefines(w, me, s, task, decided, ok, c);
    MovesAreSteps(w, me, tid, s, actions);
    MovesKeepLoops(w, me, s, actions);
    GoneIsPlaced(w, me, tid, Moves(w, me, s, actions));
  }
}
