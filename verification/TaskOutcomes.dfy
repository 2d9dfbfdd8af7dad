// What the task processor's calls come to, as functions of its memory: reading state with retries, consensus checks,
// received responses, own answers and the rows of the polling loops (pkg/operator/task).
module TaskOutcomes {
  import opened Basics
  import opened Decimal
  import opened Packing
  import opened KeyOrder
  import opened TaskModel
  import opened TaskMachine
  import opened RetryRounds

  // ---------- reading state with retries ----------

  // What one attempt meets: the head, then the contract's answer, a definite refusal, or a passing failure.
  datatype StateReply = Found(value: nat) | Refused | Flaky

  datatype Attempt = Attempt(head: Option<nat>, reply: StateReply)

  datatype StateError = FutureBlock | NotInHistory | OutOfRetries

  const MAX_RETRIES: nat := 3

  // Neither an answer nor a reason to stop.
  predicate Transient(a: Attempt, block: nat) {
    a.head.None? || (block <= a.head.value && a.reply.Flaky?)
  }

  function Verdict(a: Attempt, block: nat): Result<nat, StateError>
    requires !Transient(a, block)
  {
    if block > a.head.value then Err(FutureBlock)
    else match a.reply { case Found(v) => Ok(v) case _ => Err(NotInHistory) }
  }

  // The first attempt that is not transient decides; three transient ones give up.
  function StateRead(attempts: nat -> Attempt, block: nat, from: nat): Result<nat, StateError>
    requires from <= MAX_RETRIES
    decreases MAX_RETRIES - from
  {
    if from == MAX_RETRIES then Err(OutOfRetries)
    else if Transient(attempts(from), block) then StateRead(attempts, block, from + 1)
    else Verdict(attempts(from), block)
  }

  // A value is only ever read at an attempt that saw a head at or above the block.
  lemma {:induction false} StateReadSound(attempts: nat -> Attempt, block: nat, from: nat, value: nat)
    requires from <= MAX_RETRIES && StateRead(attempts, block, from) == Ok(value)
    ensures exists i :: from <= i < MAX_RETRIES
                        && attempts(i).reply == Found(value)
                        && attempts(i).head.Some? && block <= attempts(i).head.value
                        && forall j :: from <= j < i ==> Transient(attempts(j), block)
    decreases MAX_RETRIES - from
  {
    if Transient(attempts(from), block) {
      StateReadSound(attempts, block, from + 1, value);
      var i :| from + 1 <= i < MAX_RETRIES
               && attempts(i).reply == Found(value) && attempts(i).head.Some? && block <= attempts(i).head.value
               && forall j :: from + 1 <= j < i ==> Transient(attempts(j), block);
      assert forall j :: from <= j < i ==> Transient(attempts(j), block);
    } else {
      assert attempts(from).reply == Found(value);
    }
  }

  // An attempt that passes: no head could be read, or the block is there and reading it failed in passing. What three
  // attempts come to: the first that does not pass decides, and a later one still succeeds.
  lemma StateReadMeans(attempts: nat -> Attempt, block: nat, v: nat)
    ensures StateRead(attempts, block, 0) == Ok(v) <==>
            exists i :: 0 <= i < 3 && attempts(i).reply == Found(v)
                        && attempts(i).head.Some? && block <= attempts(i).head.value
                        && forall j :: 0 <= j < i ==>
                             || attempts(j).head.None?
                             || (block <= attempts(j).head.value && attempts(j).reply == Flaky)
    ensures StateRead(attempts, block, 0) == Err(OutOfRetries) <==>
            forall i :: 0 <= i < 3 ==>
              || attempts(i).head.None?
              || (block <= attempts(i).head.value && attempts(i).reply == Flaky)
    ensures StateRead(attempts, block, 0) == Err(FutureBlock) <==>
            exists i :: 0 <= i < 3 && attempts(i).head.Some? && attempts(i).head.value < block
                        && forall j :: 0 <= j < i ==>
                             || attempts(j).head.None?
                             || (block <= attempts(j).head.value && attempts(j).reply == Flaky)
  {
    FirstDecides(attempts, block);
  }

  lemma FirstDecides(attempts: nat -> Attempt, block: nat)
    ensures StateRead(attempts, block, 0) ==
            if !Transient(attempts(0), block) then Verdict(attempts(0), block)
            else if !Transient(attempts(1), block) then Verdict(attempts(1), block)
            else if !Transient(attempts(2), block) then Verdict(attempts(2), block)
            else Err(OutOfRetries)
  {
    assert StateRead(attempts, block, 1) ==
      if !Transient(attempts(1), block) then Verdict(attempts(1), block) else StateRead(attempts, block, 2);
  }

  // ---------- promotion ----------

  predicate Confirmed(row: TaskRow, head: Option<nat>) {
    row.status == Confirming && head.Some? && row.block != 0 && head.value >= row.block + row.required
  }

  // What one round of the confirmation loop makes of a row: promoted when its block is confirmed, and then perhaps
  // completed by the processing that follows at once.
  predicate Promoted(before: TaskRow, after: TaskRow, head: Option<nat>, updateOk: bool) {
    if Confirmed(before, head) && updateOk
    then after == before.(status := Pending) || after == before.(status := Completed)
    else after == before
  }

  lemma OneRowPromoted(before: map<TaskId, TaskRow>, after: map<TaskId, TaskRow>, task: TaskId)
    requires task in before
    requires var pending := SetStatus(before, task, Pending);
             after == pending || after == SetStatus(pending, task, Completed)
    ensures task in after && after == before[task := after[task]]
    ensures after[task] == before[task].(status := Pending) || after[task] == before[task].(status := Completed)
  {
  }

  // ---------- the processor ----------

  // Part way through a round: counted rows at the limit have left the tracker, the other ones are answered if their
  // gates allow.
  predicate RoundTracker(tracker: Tracker, me: Key, rows: map<TaskId, TaskRow>, writes: TaskId -> RetryWrites,
                         calls: TaskId -> ProcessCalls, done: set<TaskId>)
    requires done <= rows.Keys
  {
    forall t :: t in done && writes(t).countOk ==> LeftOrAnswered(tracker, me, t, rows[t], calls(t))
  }

  predicate LeftOrAnswered(tracker: Tracker, me: Key, task: TaskId, row: TaskRow, c: ProcessCalls) {
    if row.retries + 1 >= MAX_RETRY_COUNT then task !in tracker.current
    else Gates(RowRequest(task, row), c) ==> Tracked(tracker, task, me)
  }

  lemma RoundTrackerGrows(earlier: Tracker, tracker: Tracker, me: Key, rows: map<TaskId, TaskRow>,
                          writes: TaskId -> RetryWrites, calls: TaskId -> ProcessCalls, done: set<TaskId>, task: TaskId)
    requires done <= rows.Keys && task in rows && task !in done && RoundTracker(earlier, me, rows, writes, calls, done)
    requires tracker.current.Keys <= earlier.current.Keys + {task}
    requires forall t, k :: t != task && Tracked(earlier, t, k) ==> Tracked(tracker, t, k)
    requires writes(task).countOk ==> LeftOrAnswered(tracker, me, task, rows[task], calls(task))
    ensures RoundTracker(tracker, me, rows, writes, calls, done + {task})
  {
  }

  // Answers of the calls ProcessTask makes: the chain's state, the signature, this node's weight (None fails; missing
  // says that there is no row for this node, which is dereferenced nevertheless), the publication, and those of the
  // consensus check.
  datatype ProcessCalls = ProcessCalls(attempts: nat -> Attempt, bytes: Bytes, weight: Option<Numeric>, missing: bool,
                                       publishOk: bool, operators: map<Key, string>, insertOk: bool, completeOk: bool)

  // The request a row stands for.
  function RowRequest(task: TaskId, row: TaskRow): Request {
    Request(task, row.target, row.chainId, row.block, BigIntToNumeric(Some(row.key)), BigIntToNumeric(Some(row.value)),
            row.epoch)
  }

  datatype ConsensusResult =
    | NoResponses | NoThreshold | BelowThreshold | OperatorMissing | InsertFailed | CompletionFailed | Completion

  // What a check without interference bases its record on.
  ghost function EvidenceNow(t: Tracker, task: TaskId, operators: map<Key, string>, threshold: int): Evidence
    requires task in t.current
  {
    var b := t.buckets[t.current[task]];
    Evidence(b.responses, map k | k in operators && k in b.responses :: operators[k], b.weights, threshold)
  }

  ghost predicate HasResponses(t: Tracker, task: TaskId) {
    task in t.current && t.buckets[t.current[task]].responses != map[]
  }

  lemma StoreGivesResponses(t: Tracker, r: Response, key: Key, weight: int)
    ensures HasResponses(Store(t, r, key, weight), r.taskId)
  {
    StoreTracks(t, r, key, weight, r.taskId, key);
  }

  // How a check without interference ends. Comparing with a threshold that has not been read yet panics.
  ghost function Outcome(t: Tracker, records: map<TaskId, Record>, threshold: Option<int>, r: Response,
                         operators: map<Key, string>, insertOk: bool, completeOk: bool): ConsensusResult {
    if !HasResponses(t, r.taskId) then NoResponses
    else if threshold.None? then NoThreshold
    else
      var e := EvidenceNow(t, r.taskId, operators, threshold.value);
      if Sum(e.summed) < threshold.value then BelowThreshold
      else if !(e.responses.Keys <= operators.Keys) then OperatorMissing
      else if !Inserts(records, r, e, insertOk) then InsertFailed
      else if completeOk then Completion
      else CompletionFailed
  }

  predicate Inserted(result: ConsensusResult) { result.Completion? || result.CompletionFailed? }

  // The part of a node that these methods change.
  datatype Memory = Memory(tracker: Tracker, records: map<TaskId, Record>, tasks: map<TaskId, TaskRow>,
                           signed: SignatureLog)

  ghost function CheckResult(m: Memory, threshold: Option<int>, r: Response, operators: map<Key, string>,
                             insertOk: bool, completeOk: bool): Memory
  {
    var result := Outcome(m.tracker, m.records, threshold, r, operators, insertOk, completeOk);
    m.(records := if Inserted(result)
                  then var e := EvidenceNow(m.tracker, r.taskId, operators, threshold.value);
                       m.records[r.taskId := RecordOf(r, e).value]
                  else m.records,
       tasks := if result.Completion? then SetStatus(m.tasks, r.taskId, Completed) else m.tasks)
  }

  // The gates behind the sender lookup: nothing tracked for the key, no record yet, a signature that verifies, and a
  // weight that converts.
  predicate Acceptable(m: Memory, r: Response, key: Key, numeric: Numeric) {
    && !Tracked(m.tracker, r.taskId, key) && r.taskId !in m.records
    && Verifies(m.signed, r, key) && NumericToBigInt(numeric).Ok?
  }

  ghost function AcceptResult(m: Memory, threshold: Option<int>, r: Response, key: Key, numeric: Numeric,
                              operators: map<Key, string>, insertOk: bool, completeOk: bool): Memory
  {
    if Acceptable(m, r, key, numeric) then
      var stored := m.(tracker := Store(m.tracker, r, key, NumericToBigInt(numeric).value));
      CheckResult(stored, threshold, r, operators, insertOk, completeOk)
    else m
  }

  // What ProcessTask demands before it signs: a block, numerics that convert, and the claimed value on the chain.
  predicate ReadsClaim(q: Request, attempts: nat -> Attempt) {
    && q.block != 0 && RequestParams(q).Some? && RequestParams(q).value.value >= 0
    && StateRead(attempts, q.block, 0) == Ok(RequestParams(q).value.value as nat)
  }

  predicate Weighs(weight: Option<Numeric>) { weight.Some? && NumericToBigInt(weight.value).Ok? }

  // The whole of its demands: also a weight for this node.
  predicate Gates(q: Request, c: ProcessCalls) { ReadsClaim(q, c.attempts) && Weighs(c.weight) }

  // The response it makes of a request that passes.
  function OwnAnswer(q: Request, c: ProcessCalls): Response
    requires ReadsClaim(q, c.attempts)
  {
    OwnResponse(q, RequestParams(q).value.value, c.bytes)
  }

  // What breaks an answer: it is signed, and there is no row for this node to read the weight from; or it is published,
  // and there is no threshold yet to compare with.
  predicate Breaks(threshold: Option<int>, q: Request, c: ProcessCalls) {
    && ReadsClaim(q, c.attempts)
    && if Weighs(c.weight) then c.publishOk && threshold.None? else c.weight.None? && c.missing
  }

  // ProcessTask panics.
  predicate Panics(m: Memory, me: Key, threshold: Option<int>, q: Request, c: ProcessCalls) {
    !Tracked(m.tracker, q.taskId, me) && Breaks(threshold, q, c)
  }

  ghost function AnswerResult(m: Memory, me: Key, threshold: Option<int>, q: Request, c: ProcessCalls): Memory {
    if Tracked(m.tracker, q.taskId, me) || !ReadsClaim(q, c.attempts) then m
    else
      var own := OwnAnswer(q, c);
      var signed := m.(signed := m.signed + {Signature(me, Pack(RequestParams(q).value), c.bytes)});
      if !Weighs(c.weight) then signed
      else
        var stored := signed.(tracker := Store(m.tracker, own, me, NumericToBigInt(c.weight.value).value));
        if !c.publishOk then stored
        else CheckResult(stored, threshold, own, c.operators, c.insertOk, c.completeOk)
  }

  // A response handled from arrival to the end: accepted, checked, and answered unless this node has answered already.
  // A check that panics is the end.
  ghost function ResponseResult(m: Memory, me: Key, threshold: Option<int>, r: Response, key: Key, numeric: Numeric,
                                operators: map<Key, string>, insertOk: bool, completeOk: bool,
                                own: ProcessCalls): Memory
  {
    if !Acceptable(m, r, key, numeric) then m
    else
      var accepted := AcceptResult(m, threshold, r, key, numeric, operators, insertOk, completeOk);
      if threshold.None? then accepted else AnswerResult(accepted, me, threshold, RequestOf(r), own)
  }

  // The same from the message on: only responses of this epoch from active operators get that far.
  ghost function ReceiptResult(m: Memory, epoch: Uint32, me: Key, threshold: Option<int>, msg: Message,
                               sender: Option<Sender>, operators: map<Key, string>, insertOk: bool, completeOk: bool,
                               own: ProcessCalls): Memory
  {
    var r := ConvertProtoToResponse(msg);
    if r.epoch == epoch && sender.Some? && sender.value.active
    then ResponseResult(m, me, threshold, r, sender.value.key, sender.value.weight, operators, insertOk, completeOk,
                        own)
    else m
  }

  // A receipt as the handler takes it: accepted or not, then answered or not.
  lemma ReceiptInSteps(m: Memory, epoch: Uint32, me: Key, threshold: Option<int>, msg: Message, sender: Option<Sender>,
                       operators: map<Key, string>, insertOk: bool, completeOk: bool, own: ProcessCalls,
                       accepted: Memory, answer: bool, end: Memory)
    requires var r := ConvertProtoToResponse(msg);
             if r.epoch == epoch && sender.Some? && sender.value.active
                && Acceptable(m, r, sender.value.key, sender.value.weight)
             then
               && accepted == AcceptResult(m, threshold, r, sender.value.key, sender.value.weight, operators, insertOk,
                                           completeOk)
               && answer == (threshold.Some? && !Tracked(accepted.tracker, r.taskId, me))
             else accepted == m && !answer
    requires end == if answer then AnswerResult(accepted, me, threshold, RequestOf(ConvertProtoToResponse(msg)), own)
                    else accepted
    ensures end == ReceiptResult(m, epoch, me, threshold, msg, sender, operators, insertOk, completeOk, own)
  {
  }

  // A new row: inserted, and answered at once when it is pending.
  ghost function CreateResult(m: Memory, me: Key, threshold: Option<int>, task: TaskId, row: TaskRow, c: ProcessCalls):
    Memory
  {
    var added := m.(tasks := m.tasks[task := row]);
    if row.status == Pending then AnswerResult(added, me, threshold, RowRequest(task, row), c) else added
  }

  // One listed row of the retry loop, which is still in the table: counted, then at the limit deleted and untracked, or
  // else answered.
  ghost function RetryResult(m: Memory, me: Key, threshold: Option<int>, task: TaskId, row: TaskRow, w: RetryWrites,
                             c: ProcessCalls): Memory
    requires task in m.tasks
  {
    if !w.countOk then m
    else if m.tasks[task].retries + 1 >= MAX_RETRY_COUNT then
      m.(tasks := AfterRetry(m.tasks, task, w), tracker := Cleanup(m.tracker, task))
    else AnswerResult(m.(tasks := CountRetry(m.tasks, task)), me, threshold, RowRequest(task, row), c)
  }

  // One listed row of the confirmation loop: promoted and answered when its block is confirmed.
  ghost function ConfirmResult(m: Memory, me: Key, threshold: Option<int>, task: TaskId, row: TaskRow,
                               head: Option<nat>, updateOk: bool, c: ProcessCalls): Memory
  {
    if !Confirmed(row, head) || !updateOk then m
    else AnswerResult(m.(tasks := SetStatus(m.tasks, task, Pending)), me, threshold, RowRequest(task, row), c)
  }

  // The i-th signature and address are those of the i-th key.
  lemma CertificateEntries(responses: map<Key, Response>, operators: map<Key, string>)
    ensures var keys := Sorted(responses.Keys);
            && |Signatures(responses)| == |Addresses(responses, operators)| == |keys|
            && forall i :: 0 <= i < |keys| ==>
                 && keys[i] in responses && Signatures(responses)[i] == responses[keys[i]].signature
                 && (keys[i] in operators ==> Addresses(responses, operators)[i] == operators[keys[i]])
  {
    var keys := Sorted(responses.Keys);
    forall i | 0 <= i < |keys| ensures keys[i] in responses {
      assert keys[i] in keys;
    }
  }

  lemma AddressesOfResponders(responses: map<Key, Response>, operators: map<Key, string>)
    ensures Addresses(responses, operators)
         == Addresses(responses, map k | k in operators && k in responses :: operators[k])
  {
    var keys := Sorted(responses.Keys);
    forall i | 0 <= i < |keys| ensures keys[i] in responses {
      assert keys[i] in keys;
    }
  }

  // ---------- what the results mean ----------

  // What an insertion needs, column by column.
  predicate Fresh(records: map<TaskId, Record>, r: Response) {
    && StringToBigInt(r.key).Some? && StringToBigInt(r.value).Some? && r.taskId !in records
    && forall t :: t in records ==>
         !(&& records[t].target == r.target && records[t].chainId == r.chainId && records[t].block == r.block
           && records[t].key == StringToBigInt(r.key).value)
  }

  lemma InsertsMeans(records: map<TaskId, Record>, r: Response, e: Evidence, ok: bool)
    ensures Inserts(records, r, e, ok) <==> ok && Fresh(records, r)
    ensures Inserts(records, r, e, ok) <==>
              && ok && StringToBigInt(r.key).Some? && StringToBigInt(r.value).Some? && r.taskId !in records
              && forall t :: t in records ==>
                   !(&& records[t].target == r.target && records[t].chainId == r.chainId
                     && records[t].block == r.block && Some(records[t].key) == StringToBigInt(r.key))
    ensures Inserts(records, r, e, ok) ==>
              var rec := RecordOf(r, e).value;
              && rec.epoch == r.epoch && rec.target == r.target && rec.chainId == r.chainId && rec.block == r.block
              && Some(rec.key) == StringToBigInt(r.key) && Some(rec.value) == StringToBigInt(r.value)
  {
    if RecordOf(r, e).Some? {
      var rec := RecordOf(r, e).value;
      assert forall t :: t in records ==>
        (SameRequest(records[t], rec) <==>
          (&& records[t].target == r.target && records[t].chainId == r.chainId && records[t].block == r.block
           && records[t].key == StringToBigInt(r.key).value));
    }
  }

  // When a check of a task with these responses and weights writes its record.
  ghost predicate Reaches(b: Bucket, records: map<TaskId, Record>, threshold: Option<int>, r: Response,
                          operators: map<Key, string>, insertOk: bool)
  {
    && b.responses != map[] && threshold.Some? && Sum(b.weights) >= threshold.value
    && b.responses.Keys <= operators.Keys && insertOk && Fresh(records, r)
  }

  lemma OutcomeMeans(t: Tracker, records: map<TaskId, Record>, threshold: Option<int>, r: Response,
                     operators: map<Key, string>, insertOk: bool, completeOk: bool)
    ensures var result := Outcome(t, records, threshold, r, operators, insertOk, completeOk);
            && (Inserted(result) <==>
                  r.taskId in t.current
                  && Reaches(t.buckets[t.current[r.taskId]], records, threshold, r, operators, insertOk))
            && (Inserted(result) ==> (result.Completion? <==> completeOk))
  {
    if HasResponses(t, r.taskId) && threshold.Some? {
      InsertsMeans(records, r, EvidenceNow(t, r.taskId, operators, threshold.value), insertOk);
    }
  }

  // A check writes exactly one record and completes its row, or changes nothing: it writes when the tracked weights
  // add up to the threshold, every responder's operator is known, and neither the id nor target, chain, block and key
  // have a record.
  lemma CheckDecides(m: Memory, threshold: Option<int>, r: Response, operators: map<Key, string>, insertOk: bool,
                     completeOk: bool)
    ensures var end := CheckResult(m, threshold, r, operators, insertOk, completeOk);
            && end.tracker == m.tracker && end.signed == m.signed
            && if && r.taskId in m.tracker.current && threshold.Some? && insertOk
                  && (var b := m.tracker.buckets[m.tracker.current[r.taskId]];
                      && b.responses != map[] && b.responses.Keys <= operators.Keys
                      && Sum(b.weights) >= threshold.value)
                  && StringToBigInt(r.key).Some? && StringToBigInt(r.value).Some? && r.taskId !in m.records
                  && (forall t :: t in m.records ==>
                        !(&& m.records[t].target == r.target && m.records[t].chainId == r.chainId
                          && m.records[t].block == r.block && Some(m.records[t].key) == StringToBigInt(r.key)))
               then
                 && r.taskId in end.records && end.records == m.records[r.taskId := end.records[r.taskId]]
                 && (var rec := end.records[r.taskId];
                     && rec.epoch == r.epoch && rec.target == r.target && rec.chainId == r.chainId
                     && rec.block == r.block && Some(rec.key) == StringToBigInt(r.key)
                     && Some(rec.value) == StringToBigInt(r.value))
                 && end.tasks == (if completeOk && r.taskId in m.tasks
                                  then m.tasks[r.taskId := m.tasks[r.taskId].(status := Completed)] else m.tasks)
               else end.records == m.records && end.tasks == m.tasks
  {
    OutcomeMeans(m.tracker, m.records, threshold, r, operators, insertOk, completeOk);
    if r.taskId in m.tracker.current && threshold.Some? {
      InsertsMeans(m.records, r, EvidenceNow(m.tracker, r.taskId, operators, threshold.value), insertOk);
    }
  }

  // The certificate in it: signature and address of the i-th responder in i-th place, responders in ascending order.
  lemma CheckCertifies(m: Memory, threshold: Option<int>, r: Response, operators: map<Key, string>, insertOk: bool,
                       completeOk: bool)
    requires r.taskId !in m.records
    requires r.taskId in CheckResult(m, threshold, r, operators, insertOk, completeOk).records
    ensures r.taskId in m.tracker.current
    ensures var responses := m.tracker.buckets[m.tracker.current[r.taskId]].responses;
            var rec := CheckResult(m, threshold, r, operators, insertOk, completeOk).records[r.taskId];
            var signers := Sorted(responses.Keys);
            && |rec.signatures| == |rec.addresses| == |signers|
            && forall i :: 0 <= i < |signers| ==>
                 && signers[i] in responses && signers[i] in operators
                 && rec.signatures[i] == responses[signers[i]].signature && rec.addresses[i] == operators[signers[i]]
  {
    OutcomeMeans(m.tracker, m.records, threshold, r, operators, insertOk, completeOk);
    var e := EvidenceNow(m.tracker, r.taskId, operators, threshold.value);
    InsertsMeans(m.records, r, e, insertOk);
    CertificateEntries(e.responses, e.operators);
  }

  // One responder decides alone exactly by its own weight: below the threshold nothing is recorded.
  lemma SingleResponderDecides(m: Memory, threshold: int, r: Response, key: Key, operators: map<Key, string>,
                               insertOk: bool, completeOk: bool)
    requires r.taskId in m.tracker.current
    requires var b := m.tracker.buckets[m.tracker.current[r.taskId]];
             b.responses.Keys == b.weights.Keys == {key}
    ensures var weight := m.tracker.buckets[m.tracker.current[r.taskId]].weights[key];
            var end := CheckResult(m, Some(threshold), r, operators, insertOk, completeOk);
            && (weight < threshold ==> end == m)
            && (weight >= threshold && key in operators && insertOk && Fresh(m.records, r) ==>
                  end.records.Keys == m.records.Keys + {r.taskId})
  {
    var b := m.tracker.buckets[m.tracker.current[r.taskId]];
    assert b.weights == map[key := b.weights[key]];
    SumSmall(key, b.weights[key]);
    assert key in b.responses.Keys;
    CheckDecides(m, Some(threshold), r, operators, insertOk, completeOk);
  }

  // A request is signed for exactly if it names a block, its key converts, and its value is the one that the first
  // deciding of three attempts finds.
  lemma ReadsClaimMeans(q: Request, attempts: nat -> Attempt)
    ensures ReadsClaim(q, attempts) <==>
            && q.block != 0 && NumericToBigInt(q.key).Ok?
            && exists i: nat, v: nat ::
                 && i < 3 && attempts(i).reply == Found(v) && NumericToBigInt(q.value) == Ok(v)
                 && attempts(i).head.Some? && q.block <= attempts(i).head.value
                 && forall j :: 0 <= j < i ==>
                      || attempts(j).head.None?
                      || (q.block <= attempts(j).head.value && attempts(j).reply == Flaky)
  {
    if NumericToBigInt(q.value).Ok? && NumericToBigInt(q.value).value >= 0 {
      StateReadMeans(attempts, q.block, NumericToBigInt(q.value).value);
    }
  }

  // The two panics: signed without an operator row for this node, or published without a threshold.
  lemma PanicsMeans(m: Memory, me: Key, threshold: Option<int>, q: Request, c: ProcessCalls)
    ensures Panics(m, me, threshold, q, c) <==>
              && Filed(m.tracker, q.taskId, me).None? && ReadsClaim(q, c.attempts)
              && if c.weight.None? then c.missing
                 else NumericToBigInt(c.weight.value).Ok? && c.publishOk && threshold.None?
  {
  }

  // The request made of a row claims what the row says, under its id and epoch.
  lemma RowRequestMeans(task: TaskId, row: TaskRow)
    ensures var q := RowRequest(task, row);
            && q.taskId == task && q.epoch == row.epoch && q.target == row.target && q.chainId == row.chainId
            && q.block == row.block
            && NumericToBigInt(q.key) == Ok(row.key) && NumericToBigInt(q.value) == Ok(row.value)
            && q.key.valid && q.value.valid
  {
  }

  // The three ways of a listed row in the retry loop, with three as the limit.
  lemma RetryDecides(m: Memory, me: Key, threshold: Option<int>, task: TaskId, row: TaskRow, w: RetryWrites,
                     c: ProcessCalls)
    requires task in m.tasks
    ensures var end := RetryResult(m, me, threshold, task, row, w, c);
            var counted := m.tasks[task := m.tasks[task].(retries := m.tasks[task].retries + 1)];
            && (!w.countOk ==> end == m)
            && (w.countOk && m.tasks[task].retries + 1 >= 3 ==>
                  && end.tasks == (if w.deleteOk then m.tasks - {task} else counted)
                  && end.records == m.records && end.signed == m.signed
                  && (forall t, k :: Filed(end.tracker, t, k) == if t == task then None else Filed(m.tracker, t, k)))
            && (w.countOk && m.tasks[task].retries + 1 < 3 ==>
                  end == AnswerResult(m.(tasks := counted), me, threshold, RowRequest(task, row), c))
  {
    assert m.tasks[task := m.tasks[task].(retries := m.tasks[task].retries + 1)] - {task} == m.tasks - {task};
  }

  // A listed row of the confirmation loop is promoted and answered exactly when its block lies the required number of
  // blocks behind the head.
  lemma ConfirmDecides(m: Memory, me: Key, threshold: Option<int>, task: TaskId, row: TaskRow, head: Option<nat>,
                       updateOk: bool, c: ProcessCalls)
    requires task in m.tasks && row.status == Confirming
    ensures ConfirmResult(m, me, threshold, task, row, head, updateOk, c)
         == if head.Some? && row.block != 0 && row.block + row.required <= head.value && updateOk
            then AnswerResult(m.(tasks := m.tasks[task := m.tasks[task].(status := Pending)]), me, threshold,
                              RowRequest(task, row), c)
            else m
  {
  }

  // What an answer leaves: nothing when the node has answered or the claim does not read; otherwise a signature of the
  // claim, and with a weight also the tracked response, and with a publication the check.
  lemma AnswerDecides(m: Memory, me: Key, threshold: Option<int>, q: Request, c: ProcessCalls)
    ensures var end := AnswerResult(m, me, threshold, q, c);
            if Tracked(m.tracker, q.taskId, me) || !ReadsClaim(q, c.attempts) then end == m
            else
              var key, value := NumericToBigInt(q.key).value, NumericToBigInt(q.value).value;
              var claim := Params(HexToAddress(q.target), q.chainId, q.block, key, value);
              var own := Response(q.taskId, c.bytes, q.epoch, q.chainId, q.target, NumericToString(q.key), Print(value),
                                  q.block);
              var signed := m.(signed := m.signed + {Signature(me, Pack(claim), c.bytes)});
              if c.weight.None? || NumericToBigInt(c.weight.value).Err? then end == signed
              else
                var stored := signed.(tracker := Store(m.tracker, own, me, NumericToBigInt(c.weight.value).value));
                end == if c.publishOk then CheckResult(stored, threshold, own, c.operators, c.insertOk, c.completeOk)
                       else stored
  {
  }

  // A message is let in exactly if it is of the current epoch and from an active operator, nothing of that operator is
  // tracked and nothing recorded, its key and value are decimal, it carries a signature of what it says, and the
  // operator's weight converts. Then it is filed with that weight, checked, and answered unless the check panicked.
  lemma ReceiptDecides(m: Memory, epoch: Uint32, me: Key, threshold: Option<int>, msg: Message, sender: Option<Sender>,
                       operators: map<Key, string>, insertOk: bool, completeOk: bool, own: ProcessCalls)
    ensures var end := ReceiptResult(m, epoch, me, threshold, msg, sender, operators, insertOk, completeOk, own);
            if && msg.msgEpoch == epoch && sender.Some? && sender.value.active
               && Filed(m.tracker, msg.taskId, sender.value.key).None? && msg.taskId !in m.records
               && StringToBigInt(msg.msgKey).Some? && StringToBigInt(msg.msgValue).Some?
               && (var claim := Params(HexToAddress(msg.targetAddress), msg.msgChainId, msg.blockNumber,
                                       StringToBigInt(msg.msgKey).value, StringToBigInt(msg.msgValue).value);
                   Signature(sender.value.key, Pack(claim), msg.msgSignature) in m.signed)
               && NumericToBigInt(sender.value.weight).Ok?
            then
              var r := Response(msg.taskId, msg.msgSignature, msg.msgEpoch, msg.msgChainId, msg.targetAddress,
                                msg.msgKey, msg.msgValue, msg.blockNumber);
              var weight := NumericToBigInt(sender.value.weight).value;
              var stored := m.(tracker := Store(m.tracker, r, sender.value.key, weight));
              var checked := CheckResult(stored, threshold, r, operators, insertOk, completeOk);
              end == if threshold.None? then checked else AnswerResult(checked, me, threshold, RequestOf(r), own)
            else end == m
  {
  }
}
