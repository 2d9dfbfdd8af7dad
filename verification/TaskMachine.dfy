// Operator nodes, their goroutines and the chains they read, as one machine whose steps are single lock sections
// and single SQL statements (pkg/operator/task, pkg/operator/api/handlers.go).
module TaskMachine {
  import opened Basics
  import opened Decimal
  import opened Packing
  import opened HistoryStore
  import opened KeyOrder
  import opened TaskModel

  // ---------- chains ----------

  datatype Chain = Chain(head: nat, log: seq<Write>)

  type Chains = map<Uint32, Chain>

  // The contract's answer for a key at a block that exists.
  function StateAt(chains: Chains, p: Params): Option<nat> {
    if p.chainId in chains && p.block <= chains[p.chainId].head && 0 <= p.key then
      match ReplayAt(chains[p.chainId].log, p.user, p.key, p.block)
      case None => None
      case Some(w) => Some(w.value)
    else None
  }

  predicate Exists(chains: Chains, chainId: Uint32, block: nat) {
    chainId in chains && block <= chains[chainId].head
  }

  // ---------- goroutines ----------

  // resume says whether a consensus check was started by processResponse, which goes on afterwards.
  datatype Thread =
    // processResponse: operator looked up; not tracked; no record found; verified
    | Received(r: Response, key: Key, numeric: Numeric)
    | Untracked(r: Response, key: Key, numeric: Numeric)
    | Unrecorded(r: Response, key: Key, numeric: Numeric)
    | Verified(r: Response, key: Key, weight: int)
    // checkConsensus: entered; holding the inner maps; weights added up; threshold reached; operators looked up;
    // record inserted
    | Checking(r: Response, resume: bool)
    | Holding(r: Response, resume: bool, bucket: nat)
    | Summed(r: Response, resume: bool, bucket: nat, summed: map<Key, int>)
    | Reached(r: Response, resume: bool, bucket: nat, summed: map<Key, int>, threshold: int)
    | Collected(r: Response, resume: bool, evidence: Evidence)
    | Recorded(r: Response, resume: bool)
    // processResponse, after its consensus check
    | Checked(r: Response)
    // ProcessTask: called; not yet done by this node; signed; stored
    | Requested(q: Request)
    | Processing(q: Request)
    | Signed(r: Response)
    | Stored(r: Response)
    // SendRequest: status decided, about to create the row
    | Creating(task: TaskId, row: TaskRow)

  // The next action of a goroutine, with the outcomes of the calls it makes.
  datatype Action =
    | CheckTracked
    | LookForRecord(err: bool)
    | Verify
    | StoreResponse
    | Snapshot
    | AddUp
    | Compare
    | Collect(operators: map<Key, string>)
    | InsertRecord(ok: bool)
    | MarkCompleted(ok: bool)
    | CheckOwn
    | Start
    | Sign(fetched: Option<nat>, bytes: Bytes)
    | StoreOwn(numeric: Option<Numeric>)
    | Publish(ok: bool)
    | CreateRow(ok: bool, q: Request)

  // ---------- nodes ----------

  // The two polling loops: rows listed and not yet handled, and how far the first one is.
  datatype ConfirmLoop = ConfirmLoop(todo: seq<(TaskId, TaskRow)>, ready: bool)

  datatype Stage = Next | Deleting | Cleaning

  datatype TimeoutLoop = TimeoutLoop(todo: seq<(TaskId, TaskRow)>, stage: Stage)

  datatype Node = Node(
    tracker: Tracker,
    tasks: map<TaskId, TaskRow>,
    records: map<TaskId, Record>,
    threads: map<nat, Thread>,
    confirms: ConfirmLoop,
    timeouts: TimeoutLoop,
    epoch: Uint32,
    // None until the first epoch state has been read
    threshold: Option<int>,
    // history: published responses
    sent: set<Response>)

  datatype World = World(chains: Chains, signed: SignatureLog, nodes: map<Key, Node>)

  function Continue(r: Response, resume: bool): Option<Thread> { if resume then Some(Checked(r)) else None }

  // What a goroutine becomes; None when it ends. An action that does not fit leaves it as it is.
  ghost function Advance(w: World, n: Node, me: Key, th: Thread, a: Action): Option<Thread> {
    if Receiving(th) then AdvanceReceiving(w.signed, n, th, a)
    else if InCheck(th) then AdvanceCheck(n, th, a)
    else AdvanceOwn(w, n, me, th, a)
  }

  predicate Receiving(th: Thread) { th.Received? || th.Untracked? || th.Unrecorded? || th.Verified? }

  predicate InCheck(th: Thread) {
    th.Checking? || th.Holding? || th.Summed? || th.Reached? || th.Collected? || th.Recorded?
  }

  // processResponse up to storing the response.
  function AdvanceReceiving(signed: SignatureLog, n: Node, th: Thread, a: Action): Option<Thread> {
    match (th, a)
    case (Received(r, key, numeric), CheckTracked) =>
      if Tracked(n.tracker, r.taskId, key) then None else Some(Untracked(r, key, numeric))
    case (Untracked(r, key, numeric), LookForRecord(err)) =>
      if !err && r.taskId in n.records then None else Some(Unrecorded(r, key, numeric))
    case (Unrecorded(r, key, numeric), Verify) =>
      if !Verifies(signed, r, key) then None
      else (match NumericToBigInt(numeric) case Ok(weight) => Some(Verified(r, key, weight)) case Err(_) => None)
    case (Verified(r, _, _), StoreResponse) => Some(Checking(r, true))
    case _ => Some(th)
  }

  // checkConsensus.
  ghost function AdvanceCheck(n: Node, th: Thread, a: Action): Option<Thread> {
    match (th, a)
    case (Checking(r, resume), Snapshot) =>
      if r.taskId in n.tracker.current && n.tracker.buckets[n.tracker.current[r.taskId]].responses != map[]
      then Some(Holding(r, resume, n.tracker.current[r.taskId]))
      else Continue(r, resume)
    case (Holding(r, resume, b), AddUp) =>
      if b < |n.tracker.buckets| then Some(Summed(r, resume, b, n.tracker.buckets[b].weights)) else None
    case (Summed(r, resume, b, summed), Compare) =>
      // comparing with a threshold not read yet panics
      if n.threshold.None? then None
      else if Sum(summed) < n.threshold.value then Continue(r, resume)
      else Some(Reached(r, resume, b, summed, n.threshold.value))
    case (Reached(r, resume, b, summed, threshold), Collect(operators)) =>
      if b < |n.tracker.buckets| && operators.Keys == n.tracker.buckets[b].responses.Keys
      then Some(Collected(r, resume, Evidence(n.tracker.buckets[b].responses, operators, summed, threshold)))
      else Continue(r, resume)
    case (Collected(r, resume, e), InsertRecord(ok)) =>
      if Inserts(n.records, r, e, ok) then Some(Recorded(r, resume)) else Continue(r, resume)
    case (Recorded(r, resume), MarkCompleted(_)) => Continue(r, resume)
    case _ => Some(th)
  }

  ghost predicate Inserts(records: map<TaskId, Record>, r: Response, e: Evidence, ok: bool) {
    ok && RecordOf(r, e).Some? && MayInsert(records, r.taskId, RecordOf(r, e).value)
  }

  // The rest of processResponse, ProcessTask and SendRequest.
  function AdvanceOwn(w: World, n: Node, me: Key, th: Thread, a: Action): Option<Thread> {
    match (th, a)
    case (Checked(r), CheckOwn) => if Tracked(n.tracker, r.taskId, me) then None else Some(Requested(RequestOf(r)))
    case (Requested(q), Start) => if Tracked(n.tracker, q.taskId, me) then None else Some(Processing(q))
    case (Processing(q), Sign(fetched, bytes)) =>
      if !Answers(w.chains, q, fetched) then Some(th)
      else if Signs(q, fetched) then Some(Signed(OwnResponse(q, fetched.value, bytes)))
      else None
    case (Signed(r), StoreOwn(numeric)) =>
      if numeric.Some? && NumericToBigInt(numeric.value).Ok? then Some(Stored(r)) else None
    case (Stored(r), Publish(ok)) => if ok then Some(Checking(r, false)) else None
    case (Creating(task, row), CreateRow(ok, q)) =>
      if !(ok && task !in n.tasks) then None
      else if row.status == Pending && ReadFrom(q, task, row) then Some(Requested(q))
      else if row.status == Pending then Some(th)
      else None
    case _ => Some(th)
  }

  // A state read answers from the chain: an error, or for a word-sized key the value at an existing block.
  predicate Answers(chains: Chains, q: Request, fetched: Option<nat>) {
    fetched.Some? && NumericToBigInt(q.key).Ok? && 0 <= NumericToBigInt(q.key).value < TWO_256 ==>
      StateAt(chains, Params(HexToAddress(q.target), q.chainId, q.block, NumericToBigInt(q.key).value, 0)) == fetched
  }

  // ProcessTask signs when the block is given, the numerics convert and the fetched value is the claimed one.
  predicate Signs(q: Request, fetched: Option<nat>) {
    q.block != 0 && fetched.Some? && RequestParams(q).Some? && RequestParams(q).value.value == fetched.value
  }

  function SignatureOf(w: World, me: Key, th: Thread, a: Action): SignatureLog {
    match (th, a)
    case (Processing(q), Sign(fetched, bytes)) =>
      if Answers(w.chains, q, fetched) && Signs(q, fetched)
      then {Signature(me, Pack(RequestParams(q).value), bytes)} else {}
    case _ => {}
  }

  // What the action does to the node besides moving the goroutine.
  datatype Effect =
    | Quiet
    | Keep(r: Response, key: Key, weight: int, own: bool)
    | AddRecord(task: TaskId, rec: Record)
    | Finish(task: TaskId)
    | AddRow(task: TaskId, row: TaskRow)
    | Send(r: Response)

  ghost function EffectOf(n: Node, me: Key, th: Thread, a: Action): Effect {
    match (th, a)
    case (Verified(r, key, weight), StoreResponse) => Keep(r, key, weight, false)
    case (Collected(r, _, e), InsertRecord(ok)) =>
      if Inserts(n.records, r, e, ok)
      then AddRecord(r.taskId, RecordOf(r, e).value) else Quiet
    case (Recorded(r, _), MarkCompleted(ok)) => if ok then Finish(r.taskId) else Quiet
    case (Signed(r), StoreOwn(numeric)) =>
      if numeric.Some? && NumericToBigInt(numeric.value).Ok?
      then Keep(r, me, NumericToBigInt(numeric.value).value, true) else Quiet
    case (Stored(r), Publish(ok)) => if ok then Send(r) else Quiet
    case (Creating(task, row), CreateRow(ok, q)) =>
      if ok && task !in n.tasks && (row.status == Pending ==> ReadFrom(q, task, row)) then AddRow(task, row) else Quiet
    case _ => Quiet
  }

  function SetStatus(tasks: map<TaskId, TaskRow>, task: TaskId, status: Status): map<TaskId, TaskRow> {
    if task in tasks then tasks[task := tasks[task].(status := status)] else tasks
  }

  function Apply(n: Node, e: Effect): Node {
    match e
    case Quiet => n
    case Keep(r, key, weight, _) => n.(tracker := Store(n.tracker, r, key, weight))
    case AddRecord(task, rec) => n.(records := n.records[task := rec])
    case Finish(task) => n.(tasks := SetStatus(n.tasks, task, Completed))
    case AddRow(task, row) => n.(tasks := n.tasks[task := row])
    case Send(r) => n.(sent := n.sent + {r})
  }

  // ---------- steps of one node ----------

  datatype Step =
    // a response arrives; operator is the row of the sender, if any: active, signing key, weight
    | Deliver(tid: nat, m: Message, operator: Option<Sender>)
    // an API request passed validation and found neither record nor row; head is the head it read
    | Ask(tid: nat, task: TaskId, row: TaskRow, head: nat)
    | Act(tid: nat, action: Action)
    | ListConfirming(listed: seq<(TaskId, TaskRow)>)
    | CheckHead(seen: Option<nat>)
    | MovePending(tid: nat, ok: bool, q: Request)
    | ListPending(listed: seq<(TaskId, TaskRow)>)
    | Retry(tid: nat, ok: bool, q: Request)
    | DeleteRow(ok: bool)
    | CleanupTask
    | CleanupAllTasks
    | ChangeEpoch(epoch: Uint32, threshold: int)

  // A listing has every row with the status, each once.
  predicate ListsStatus(listed: seq<(TaskId, TaskRow)>, tasks: map<TaskId, TaskRow>, status: Status) {
    && (forall i :: 0 <= i < |listed| ==>
          listed[i].0 in tasks && tasks[listed[i].0] == listed[i].1 && listed[i].1.status == status)
    && (forall i, j :: 0 <= i < j < |listed| ==> listed[i].0 != listed[j].0)
    && (forall t :: t in tasks && tasks[t].status == status ==> (t, tasks[t]) in listed)
  }

  function Spawn(n: Node, tid: nat, th: Thread): Node {
    if tid in n.threads then n else n.(threads := n.threads[tid := th])
  }

  function PendingOrConfirming(row: TaskRow, head: nat): TaskRow {
    row.(status := if head < row.block + row.required then Confirming else Pending, retries := 0)
  }

  const MAX_RETRY_COUNT := 3

  function WithRetry(row: TaskRow): TaskRow { row.(retries := row.retries + 1) }

  // The first confirming row not yet handled: read a head, then move the row to pending and process it.
  datatype ConfirmMove = Wait | Drop | HeadReached | Promote(tid: nat, q: Request)

  function ConfirmMoveOf(w: World, n: Node, step: Step): ConfirmMove
    requires n.confirms.todo != []
  {
    var (task, row) := n.confirms.todo[0];
    match step
    case CheckHead(head) =>
      if n.confirms.ready || (head.Some? && !Exists(w.chains, row.chainId, head.value)) then Wait
      else if head.None? || row.block == 0 || head.value < row.block + row.required then Drop
      else HeadReached
    case MovePending(tid, ok, q) =>
      if !n.confirms.ready || tid in n.threads || !ReadFrom(q, task, row) then Wait
      else if !ok then Drop
      else Promote(tid, q)
    case _ => Wait
  }

  function ConfirmStep(n: Node, move: ConfirmMove): Node
    requires n.confirms.todo != []
  {
    var rest := ConfirmLoop(n.confirms.todo[1..], false);
    match move
    case Wait => n
    case Drop => n.(confirms := rest)
    case HeadReached => n.(confirms := n.confirms.(ready := true))
    case Promote(tid, q) =>
      Spawn(n, tid, Requested(q)).(confirms := rest, tasks := SetStatus(n.tasks, n.confirms.todo[0].0, Pending))
  }

  // The first pending row not yet handled: count the retry, then delete it and its responses, or process it again. A
  // row that is gone crashes the process, which here takes no further step of the loop.
  datatype TimeoutMove =
    | Rest | Skip | Crash | CountAndDelete | CountAndRun(tid: nat, q: Request) | Remove(ok: bool) | Forget

  function TimeoutMoveOf(n: Node, step: Step): TimeoutMove
    requires n.timeouts.todo != []
  {
    var (task, row) := n.timeouts.todo[0];
    match (step, n.timeouts.stage)
    case (Retry(tid, ok, q), Next) =>
      if tid in n.threads || !ReadFrom(q, task, row) then Rest
      else if !ok then Skip
      else if task !in n.tasks then Crash
      else if n.tasks[task].retries + 1 >= MAX_RETRY_COUNT then CountAndDelete
      else CountAndRun(tid, q)
    case (DeleteRow(ok), Deleting) => Remove(ok)
    case (CleanupTask, Cleaning) => Forget
    case _ => Rest
  }

  function CountRetry(tasks: map<TaskId, TaskRow>, task: TaskId): map<TaskId, TaskRow> {
    if task in tasks then tasks[task := WithRetry(tasks[task])] else tasks
  }

  function TimeoutStep(n: Node, move: TimeoutMove): Node
    requires n.timeouts.todo != []
  {
    var task := n.timeouts.todo[0].0;
    var rest := TimeoutLoop(n.timeouts.todo[1..], Next);
    match move
    case Rest => n
    case Skip => n.(timeouts := rest)
    case Crash => n
    case CountAndDelete => n.(tasks := CountRetry(n.tasks, task), timeouts := n.timeouts.(stage := Deleting))
    case CountAndRun(tid, q) => Spawn(n, tid, Requested(q)).(tasks := CountRetry(n.tasks, task), timeouts := rest)
    case Remove(ok) =>
      n.(tasks := if ok then n.tasks - {task} else n.tasks, timeouts := n.timeouts.(stage := Cleaning))
    case Forget => n.(tracker := Cleanup(n.tracker, task), timeouts := rest)
  }

  ghost function ActStep(w: World, me: Key, n: Node, tid: nat, a: Action): Node
    requires tid in n.threads
  {
    var after := Advance(w, n, me, n.threads[tid], a);
    Apply(n, EffectOf(n, me, n.threads[tid], a)).(
      threads := if after.Some? then n.threads[tid := after.value] else n.threads - {tid})
  }

  predicate IsArrival(step: Step) { step.Deliver? || step.Ask? }

  predicate IsPoll(step: Step) {
    step.CheckHead? || step.MovePending? || step.Retry? || step.DeleteRow? || step.CleanupTask?
  }

  function Arrive(w: World, n: Node, step: Step): Node
    requires IsArrival(step)
  {
    match step
    case Deliver(tid, m, operator) =>
      var r := ConvertProtoToResponse(m);
      if r.epoch == n.epoch && operator.Some? && operator.value.active
      then Spawn(n, tid, Received(r, operator.value.key, operator.value.weight)) else n
    case Ask(tid, task, row, head) =>
      if Exists(w.chains, row.chainId, head) then Spawn(n, tid, Creating(task, PendingOrConfirming(row, head))) else n
  }

  function Poll(w: World, n: Node, step: Step): Node
    requires IsPoll(step)
  {
    if step.CheckHead? || step.MovePending? then
      if n.confirms.todo == [] then n else ConfirmStep(n, ConfirmMoveOf(w, n, step))
    else
      if n.timeouts.todo == [] then n else TimeoutStep(n, TimeoutMoveOf(n, step))
  }

  function ListedConfirming(c: ConfirmLoop, listed: seq<(TaskId, TaskRow)>, tasks: map<TaskId, TaskRow>): ConfirmLoop {
    if c.todo == [] && ListsStatus(listed, tasks, Confirming) then ConfirmLoop(listed, false) else c
  }

  function ListedPending(l: TimeoutLoop, listed: seq<(TaskId, TaskRow)>, tasks: map<TaskId, TaskRow>): TimeoutLoop {
    if l.todo == [] && ListsStatus(listed, tasks, Pending) then TimeoutLoop(listed, Next) else l
  }

  function Upkeep(n: Node, step: Step): Node
    requires !step.Act? && !IsArrival(step) && !IsPoll(step)
  {
    match step
    case ListConfirming(listed) => n.(confirms := ListedConfirming(n.confirms, listed, n.tasks))
    case ListPending(listed) => n.(timeouts := ListedPending(n.timeouts, listed, n.tasks))
    case CleanupAllTasks => n.(tracker := CleanupAll(n.tracker))
    case ChangeEpoch(epoch, threshold) => n.(epoch := epoch, threshold := Some(threshold))
  }

  // A step that does not apply changes nothing.
  ghost function NodeStep(w: World, me: Key, n: Node, step: Step): Node {
    if step.Act? then if step.tid in n.threads then ActStep(w, me, n, step.tid, step.action) else n
    else if IsArrival(step) then Arrive(w, n, step)
    else if IsPoll(step) then Poll(w, n, step)
    else Upkeep(n, step)
  }

  // ---------- the world ----------

  datatype Event =
    | Local(me: Key, step: Step)
    // a key without a node signs whatever it likes
    | Forge(signature: Signature)
    // a block is added to a chain, with its writes
    | Mine(chainId: Uint32, writes: seq<Write>)

  ghost function WorldStep(w: World, e: Event): World {
    match e
    case Local(me, step) =>
      if me !in w.nodes then w
      else
        var n := w.nodes[me];
        var signed :=
          if step.Act? && step.tid in n.threads then SignatureOf(w, me, n.threads[step.tid], step.action) else {};
        w.(nodes := w.nodes[me := NodeStep(w, me, n, step)], signed := w.signed + signed)
    case Forge(signature) => if signature.key in w.nodes then w else w.(signed := w.signed + {signature})
    case Mine(chainId, writes) =>
      if chainId in w.chains && forall i :: 0 <= i < |writes| ==> writes[i].block == w.chains[chainId].head + 1
      then w.(chains := w.chains[chainId := Chain(w.chains[chainId].head + 1, w.chains[chainId].log + writes)])
      else w
  }

  predicate FreshNode(n: Node) {
    && n.tracker == EmptyTracker() && n.tasks == map[] && n.records == map[] && n.threads == map[]
    && n.epoch == 0 && n.threshold == None
    && n.confirms == ConfirmLoop([], false) && n.timeouts == TimeoutLoop([], Next)
    && n.sent == {}
  }

  // Chains whose logs end at their heads, fresh nodes, nothing signed.
  predicate Initial(w: World) {
    && (forall c :: c in w.chains ==>
          forall i :: 0 <= i < |w.chains[c].log| ==> w.chains[c].log[i].block <= w.chains[c].head)
    && (forall k :: k in w.nodes ==> FreshNode(w.nodes[k]))
    && w.signed == {}
  }

  // A run: the states passed through and the events between them.
  ghost predicate Run(states: seq<World>, events: seq<Event>) {
    && |states| == |events| + 1 && Initial(states[0])
    && forall i {:trigger events[i]} :: 0 <= i < |events| ==> states[i + 1] == WorldStep(states[i], events[i])
  }
}
