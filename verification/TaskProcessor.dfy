// The task processor's code as one caller runs it, each method proved against the definitions the machine is made
// of (pkg/operator/task).
module TaskProcessing {
  import opened Basics
  import opened Decimal
  import opened Packing
  import opened KeyOrder
  import opened TaskModel
  import opened TaskMachine
  import opened RetryRounds
  import opened TaskOutcomes

  method GetStateWithRetries(attempts: nat -> Attempt, block: nat) returns (r: Result<nat, StateError>)
    ensures r == StateRead(attempts, block, 0)
  {
    for i := 0 to MAX_RETRIES
      invariant StateRead(attempts, block, i) == StateRead(attempts, block, 0)
    {
      var a := attempts(i);
      if a.head.Some? {
        if block > a.head.value {
          return Err(FutureBlock);
        }
        match a.reply {
          case Found(v) => return Ok(v);
          case Refused => return Err(NotInHistory);
          case Flaky =>
        }
      }
    }
    return Err(OutOfRetries);
  }

  // The loop over the sorted keys; an unknown operator fails the collection.
  method CollectInOrder(signingKeys: seq<Key>, responses: map<Key, Response>, operators: map<Key, string>)
    returns (r: Option<(seq<Bytes>, seq<string>)>)
    requires forall i :: 0 <= i < |signingKeys| ==> signingKeys[i] in responses
    ensures r.Some? <==> forall i :: 0 <= i < |signingKeys| ==> signingKeys[i] in operators
    ensures r.Some? ==>
              && |r.value.0| == |r.value.1| == |signingKeys|
              && forall i :: 0 <= i < |signingKeys| ==>
                   r.value.0[i] == responses[signingKeys[i]].signature && r.value.1[i] == operators[signingKeys[i]]
  {
    var signatures: seq<Bytes>, addresses: seq<string> := [], [];
    for i := 0 to |signingKeys|
      invariant |signatures| == |addresses| == i
      invariant forall j :: 0 <= j < i ==> signingKeys[j] in operators
      invariant forall j :: 0 <= j < i ==>
                  signatures[j] == responses[signingKeys[j]].signature && addresses[j] == operators[signingKeys[j]]
    {
      var k := signingKeys[i];
      if k !in operators {
        return None;
      }
      signatures, addresses := signatures + [responses[k].signature], addresses + [operators[k]];
    }
    return Some((signatures, addresses));
  }

  class TaskProcessor {
    const me: Key
    var tracker: Tracker
    var tasks: map<TaskId, TaskRow>
    var records: map<TaskId, Record>
    // None until the first epoch state has been read
    var threshold: Option<int>
    var epoch: Uint32
    // what all keys have signed, and what this node has published
    var signed: SignatureLog
    var published: seq<Message>

    constructor (me: Key)
      ensures this.me == me && tracker == EmptyTracker() && tasks == map[] && records == map[] && published == []
      ensures threshold == None && epoch == 0
    {
      this.me := me;
      tracker, tasks, records := EmptyTracker(), map[], map[];
      threshold, epoch, signed, published := None, 0, {}, [];
    }

    // ----- tracker -----

    method StoreResponseAndWeight(r: Response, key: Key, weight: int)
      modifies this`tracker
      ensures tracker == Store(old(tracker), r, key, weight)
    {
      var current, buckets := tracker.current, tracker.buckets;
      if r.taskId !in current {
        current := current[r.taskId := |buckets|];
        buckets := buckets + [Bucket(r.taskId, map[], map[])];
      }
      var a := current[r.taskId];
      buckets := buckets[a := buckets[a].(responses := buckets[a].responses[key := r])];
      buckets := buckets[a := buckets[a].(weights := buckets[a].weights[key := weight])];
      tracker := TrackerRep(current, buckets);
    }

    method AlreadyProcessed(task: TaskId, key: Key) returns (processed: bool)
      ensures processed == Tracked(tracker, task, key)
    {
      processed := task in tracker.current && key in tracker.buckets[tracker.current[task]].responses;
    }

    method CleanupTask(task: TaskId)
      modifies this`tracker
      ensures tracker == Cleanup(old(tracker), task)
      ensures forall key :: !Tracked(tracker, task, key)
      ensures forall t, key :: t != task ==> (Tracked(tracker, t, key) <==> old(Tracked(tracker, t, key)))
    {
      tracker := TrackerRep(tracker.current - {task}, tracker.buckets);
    }

    method CleanupAllTasks()
      modifies this`tracker
      ensures tracker == CleanupAll(old(tracker))
      ensures forall t, key :: !Tracked(tracker, t, key)
    {
      tracker := TrackerRep(map[], tracker.buckets);
    }

    // ----- consensus -----

    // The map is walked in some order; sorting makes the result independent of it.
    method SigningKeys(responses: map<Key, Response>) returns (signingKeys: seq<Key>)
      ensures signingKeys == Sorted(responses.Keys)
    {
      var walked: seq<Key> := [];
      var rest := responses.Keys;
      while rest != {}
        invariant rest <= responses.Keys
        invariant forall k :: k in walked <==> k in responses && k !in rest
        decreases rest
      {
        var k :| k in rest;
        walked, rest := walked + [k], rest - {k};
      }
      assert (set k | k in walked) == responses.Keys;
      signingKeys := SortStrings(walked);
    }

    method CollectSignaturesAndAddresses(responses: map<Key, Response>, operators: map<Key, string>)
      returns (r: Option<(seq<Bytes>, seq<string>)>)
      ensures r == if responses.Keys <= operators.Keys
                   then Some((Signatures(responses), Addresses(responses, operators))) else None
    {
      var signingKeys := SigningKeys(responses);
      CertificateEntries(responses, operators);
      r := CollectInOrder(signingKeys, responses, operators);
      if r.Some? {
        assert r.value.0 == Signatures(responses);
        assert r.value.1 == Addresses(responses, operators);
        forall k | k in responses ensures k in operators {
          assert k in signingKeys;
        }
      }
    }

    method MarkTaskAsCompleted(task: TaskId, ok: bool) returns (done: bool)
      modifies this`tasks
      ensures done == ok
      ensures tasks == if ok then SetStatus(old(tasks), task, Completed) else old(tasks)
    {
      if ok && task in tasks {
        tasks := tasks[task := tasks[task].(status := Completed)];
      }
      return ok;
    }

    // Both constraints and the key and value columns decide whether the row goes in.
    method CreateConsensusResponse(r: Response, signatures: seq<Bytes>, addresses: seq<string>, e: Evidence, ok: bool)
      returns (created: bool)
      requires signatures == Signatures(e.responses) && addresses == Addresses(e.responses, e.operators)
      modifies this`records
      ensures created == Inserts(old(records), r, e, ok)
      ensures records == if created then old(records)[r.taskId := RecordOf(r, e).value] else old(records)
    {
      var key, value := StringToBigInt(r.key), StringToBigInt(r.value);
      if !ok || key.None? || value.None? {
        return false;
      }
      var rec := Record(r.epoch, value.value, key.value, r.chainId, r.block, r.target, signatures, addresses, e);
      assert RecordOf(r, e) == Some(rec);
      created := MayInsert(records, r.taskId, rec);
      if created {
        records := records[r.taskId := rec];
      }
    }

    // The end of a check that reached the threshold.
    method RecordAndComplete(r: Response, signatures: seq<Bytes>, addresses: seq<string>, e: Evidence,
                             insertOk: bool, completeOk: bool) returns (result: ConsensusResult)
      requires signatures == Signatures(e.responses) && addresses == Addresses(e.responses, e.operators)
      modifies this`records, this`tasks
      ensures result == if !Inserts(old(records), r, e, insertOk) then InsertFailed
                        else if completeOk then Completion else CompletionFailed
      ensures records == if Inserted(result) then old(records)[r.taskId := RecordOf(r, e).value] else old(records)
      ensures tasks == if result.Completion? then SetStatus(old(tasks), r.taskId, Completed) else old(tasks)
    {
      var created := CreateConsensusResponse(r, signatures, addresses, e, insertOk);
      if !created {
        return InsertFailed;
      }
      var done := MarkTaskAsCompleted(r.taskId, completeOk);
      return if done then Completion else CompletionFailed;
    }

    ghost function Kept(): Memory
      reads this
    {
      Memory(tracker, records, tasks, signed)
    }

    // NoThreshold stands for the panic on comparing with a missing threshold.
    method CheckConsensus(r: Response, operators: map<Key, string>, insertOk: bool, completeOk: bool)
      returns (result: ConsensusResult)
      modifies this`records, this`tasks
      ensures result == Outcome(tracker, old(records), threshold, r, operators, insertOk, completeOk)
      ensures Kept() == CheckResult(old(Kept()), threshold, r, operators, insertOk, completeOk)
    {
      if r.taskId !in tracker.current || tracker.buckets[tracker.current[r.taskId]].responses == map[] {
        return NoResponses;
      }
      var b := tracker.buckets[tracker.current[r.taskId]];
      var totalWeight := CalculateTotalWeight(b.weights);
      if threshold.None? {
        return NoThreshold;
      }
      if totalWeight < threshold.value {
        return BelowThreshold;
      }
      var collected := CollectSignaturesAndAddresses(b.responses, operators);
      if collected.None? {
        return OperatorMissing;
      }
      AddressesOfResponders(b.responses, operators);
      var found := map k | k in operators && k in b.responses :: operators[k];
      var e := Evidence(b.responses, found, b.weights, threshold.value);
      result := RecordAndComplete(r, collected.value.0, collected.value.1, e, insertOk, completeOk);
    }

    // The same for callers that go on whatever the result; alive is false when it panics.
    method Check(r: Response, operators: map<Key, string>, insertOk: bool, completeOk: bool) returns (alive: bool)
      modifies this`records, this`tasks
      ensures alive == (threshold.Some? || !HasResponses(tracker, r.taskId))
      ensures Kept() == CheckResult(old(Kept()), threshold, r, operators, insertOk, completeOk)
    {
      var result := CheckConsensus(r, operators, insertOk, completeOk);
      return !result.NoThreshold?;
    }

    // ----- own responses -----

    // Not answered yet, and every gate passed.
    ghost predicate Answerable(q: Request, c: ProcessCalls)
      reads this
    {
      !Tracked(tracker, q.taskId, me) && Gates(q, c)
    }

    // The value on the chain, if it is the one claimed.
    method ReadClaimed(q: Request, attempts: nat -> Attempt) returns (p: Option<Params>)
      ensures p.Some? <==> && RequestParams(q).Some? && RequestParams(q).value.value >= 0
                           && StateRead(attempts, q.block, 0) == Ok(RequestParams(q).value.value as nat)
      ensures p.Some? ==> p == RequestParams(q)
    {
      var key := NumericToBigInt(q.key);
      if key.Err? {
        return None;
      }
      var state := GetStateWithRetries(attempts, q.block);
      if state.Err? {
        return None;
      }
      var claimed := NumericToBigInt(q.value);
      if claimed.Err? || claimed.value != state.value {
        return None;
      }
      return Some(Params(HexToAddress(q.target), q.chainId, q.block, key.value, state.value));
    }

    // Sign the value read, store the response under this node's key with its weight, publish it.
    method SignAndPublish(q: Request, p: Params, c: ProcessCalls) returns (sent: bool)
      requires q.key.valid && RequestParams(q) == Some(p) && p.value >= 0
      modifies this`tracker, this`signed, this`published
      ensures sent == (c.weight.Some? && NumericToBigInt(c.weight.value).Ok? && c.publishOk)
      ensures signed == old(signed) + {Signature(me, Pack(p), c.bytes)}
      ensures var own := OwnResponse(q, p.value, c.bytes);
              if c.weight.Some? && NumericToBigInt(c.weight.value).Ok? then
                && tracker == Store(old(tracker), own, me, NumericToBigInt(c.weight.value).value)
                && published == old(published) + (if c.publishOk then [BroadcastMessage(own)] else [])
                && Verifies(signed, ConvertProtoToResponse(BroadcastMessage(own)), me)
              else tracker == old(tracker) && published == old(published)
    {
      signed := signed + {Signature(me, Pack(p), c.bytes)};
      if c.weight.None? {
        return false;
      }
      var w := NumericToBigInt(c.weight.value);
      if w.Err? {
        return false;
      }
      var own := OwnResponse(q, p.value, c.bytes);
      StoreResponseAndWeight(own, me, w.value);
      OwnResponseVerifies(signed, q, p.value, me, c.bytes);
      if !c.publishOk {
        return false;
      }
      published := published + [BroadcastMessage(own)];
      return true;
    }

    // The same and the check that follows.
    method Respond(q: Request, p: Params, c: ProcessCalls) returns (sent: bool, alive: bool)
      requires q.key.valid && RequestParams(q) == Some(p) && ReadsClaim(q, c.attempts)
      requires !Tracked(tracker, q.taskId, me)
      modifies this`tracker, this`records, this`tasks, this`signed, this`published
      ensures sent == (Weighs(c.weight) && c.publishOk) && alive == !Breaks(threshold, q, c)
      ensures tracker == if Weighs(c.weight)
                         then Store(old(tracker), OwnAnswer(q, c), me, NumericToBigInt(c.weight.value).value)
                         else old(tracker)
      ensures published == old(published) + (if sent then [BroadcastMessage(OwnAnswer(q, c))] else [])
      ensures Weighs(c.weight) ==> Verifies(signed, ConvertProtoToResponse(BroadcastMessage(OwnAnswer(q, c))), me)
      ensures !sent ==> records == old(records) && tasks == old(tasks)
      ensures Kept() == AnswerResult(old(Kept()), me, threshold, q, c)
    {
      ghost var before := tracker;
      sent := SignAndPublish(q, p, c);
      alive := c.weight.Some? || !c.missing;
      if sent {
        var own := OwnResponse(q, p.value, c.bytes);
        StoreGivesResponses(before, own, me, NumericToBigInt(c.weight.value).value);
        alive := Check(own, c.operators, c.insertOk, c.completeOk);
      }
    }

    // A request is answered exactly when it passes every gate: the claimed value is signed, stored with this node's
    // weight and, if publishing succeeds, published in a form that verifies under this node's key.
    // alive is false when it panics.
    method ProcessTask(q: Request, c: ProcessCalls) returns (sent: bool, alive: bool)
      requires q.key.valid
      modifies this`tracker, this`records, this`tasks, this`signed, this`published
      ensures alive == !old(Panics(Kept(), me, threshold, q, c))
      ensures sent == (old(Answerable(q, c)) && c.publishOk)
      ensures sent <==>
                && !old(Tracked(tracker, q.taskId, me)) && ReadsClaim(q, c.attempts)
                && c.weight.Some? && NumericToBigInt(c.weight.value).Ok? && c.publishOk
      ensures old(Answerable(q, c)) ==>
                var key, value := NumericToBigInt(q.key).value, NumericToBigInt(q.value).value;
                var claim := Params(HexToAddress(q.target), q.chainId, q.block, key, value);
                var own := OwnAnswer(q, c);
                var message := Message(q.taskId, c.bytes, Print(value), q.block, q.chainId, q.target,
                                       NumericToString(q.key), q.epoch);
                && signed == old(signed) + {Signature(me, Pack(claim), c.bytes)}
                && tracker == Store(old(tracker), own, me, NumericToBigInt(c.weight.value).value)
                && published == old(published) + (if c.publishOk then [message] else [])
                && Verifies(signed, ConvertProtoToResponse(message), me)
      ensures !old(Answerable(q, c)) ==> tracker == old(tracker) && published == old(published)
      ensures old(Tracked(tracker, q.taskId, me)) ==> signed == old(signed)
      ensures !sent ==> records == old(records) && tasks == old(tasks)
      ensures Kept() == AnswerResult(old(Kept()), me, threshold, q, c)
    {
      var processed := AlreadyProcessed(q.taskId, me);
      if processed || q.block == 0 {
        return false, true;
      }
      var p := ReadClaimed(q, c.attempts);
      if p.None? {
        return false, true;
      }
      sent, alive := Respond(q, p.value, c);
    }

    // What an answer publishes.
    ghost function Published(q: Request, c: ProcessCalls): seq<Message>
      reads this
    {
      if Answerable(q, c) && c.publishOk
      then [BroadcastMessage(OwnAnswer(q, c))] else []
    }

    // ProcessTask as its callers see it: only this row can be completed, and then it has a record; nothing tracked is
    // lost; and after the gates are passed this node's response is tracked.
    method Answer(q: Request, c: ProcessCalls) returns (alive: bool)
      requires q.key.valid
      modifies this`tracker, this`records, this`tasks, this`signed, this`published
      ensures alive == !old(Panics(Kept(), me, threshold, q, c))
      ensures tasks == old(tasks) || (tasks == SetStatus(old(tasks), q.taskId, Completed) && q.taskId in records)
      ensures old(records).Keys <= records.Keys
      ensures Gates(q, c) ==> Tracked(tracker, q.taskId, me)
      ensures forall t, k :: old(Tracked(tracker, t, k)) ==> Tracked(tracker, t, k)
      ensures tracker.current.Keys <= old(tracker).current.Keys + {q.taskId}
      ensures published == old(published) + old(Published(q, c))
      ensures Kept() == AnswerResult(old(Kept()), me, threshold, q, c)
    {
      ghost var before := tracker;
      var _, survived := ProcessTask(q, c);
      alive := survived;
      if tracker != before {
        var own := OwnAnswer(q, c);
        var weight := NumericToBigInt(c.weight.value).value;
        forall t, k ensures Tracked(before, t, k) ==> Tracked(tracker, t, k) {
          StoreTracks(before, own, me, weight, t, k);
        }
        StoreTracks(before, own, me, weight, q.taskId, me);
      }
    }

    // The same for a listed row, as far as the polling loops care.
    method AnswerRow(task: TaskId, row: TaskRow, c: ProcessCalls) returns (alive: bool)
      modifies this`tracker, this`records, this`tasks, this`signed, this`published
      ensures tasks == old(tasks) || (tasks == SetStatus(old(tasks), task, Completed) && task in records)
      ensures old(records).Keys <= records.Keys
      ensures Gates(RowRequest(task, row), c) ==> Tracked(tracker, task, me)
      ensures forall t, k :: old(Tracked(tracker, t, k)) ==> Tracked(tracker, t, k)
      ensures tracker.current.Keys <= old(tracker).current.Keys + {task}
      ensures !alive ==> Breaks(threshold, RowRequest(task, row), c)
      ensures Kept() == AnswerResult(old(Kept()), me, threshold, RowRequest(task, row), c)
    {
      alive := Answer(RowRequest(task, row), c);
    }

    // ----- incoming responses -----

    // The gates a response passes before it is stored.
    ghost predicate Accepts(r: Response, operator: Option<Sender>)
      reads this
    {
      && r.epoch == epoch && operator.Some? && operator.value.active
      && Acceptable(Kept(), r, operator.value.key, operator.value.weight)
    }

    // The gates field by field: the current epoch, an active operator with nothing tracked and no record, decimal key
    // and value, a signature of what the message says, and a weight that converts.
    lemma AcceptsMeans(m: Message, operator: Option<Sender>)
      ensures Accepts(ConvertProtoToResponse(m), operator) <==>
                && m.msgEpoch == epoch && operator.Some? && operator.value.active
                && !Tracked(tracker, m.taskId, operator.value.key) && m.taskId !in records
                && StringToBigInt(m.msgKey).Some? && StringToBigInt(m.msgValue).Some?
                && (var claim := Params(HexToAddress(m.targetAddress), m.msgChainId, m.blockNumber,
                                        StringToBigInt(m.msgKey).value, StringToBigInt(m.msgValue).value);
                    Signature(operator.value.key, Pack(claim), m.msgSignature) in signed)
                && NumericToBigInt(operator.value.weight).Ok?
    {
    }

    // A response is stored under its sender's key exactly when it passes every gate; then consensus is checked. It is
    // to be answered if that does not panic and this node has not answered.
    method AcceptResponse(m: Message, operator: Option<Sender>, operators: map<Key, string>,
                          insertOk: bool, completeOk: bool)
      returns (stored: bool, answer: bool)
      modifies this`tracker, this`records, this`tasks
      ensures stored ==> m.msgEpoch == epoch && operator.Some? && operator.value.active
      ensures var r := ConvertProtoToResponse(m);
              && stored == old(Accepts(r, operator))
              && (stored ==>
                    tracker == Store(old(tracker), r, operator.value.key, NumericToBigInt(operator.value.weight).value))
              && (!stored ==> tracker == old(tracker) && records == old(records) && tasks == old(tasks) && !answer)
              && (stored ==>
                    Kept() == AcceptResult(old(Kept()), threshold, r, operator.value.key, operator.value.weight,
                                           operators, insertOk, completeOk))
      ensures stored ==> Tracked(tracker, m.taskId, operator.value.key)
      ensures stored ==> answer == (threshold.Some? && !Tracked(tracker, m.taskId, me))
      ensures stored ==>
                answer == (threshold.Some? && operator.value.key != me && !old(Tracked(tracker, m.taskId, me)))
    {
      var r := ConvertProtoToResponse(m);
      if r.epoch != epoch || operator.None? || !operator.value.active {
        return false, false;
      }
      var signingKey := operator.value.key;
      var processed := AlreadyProcessed(r.taskId, signingKey);
      if processed || r.taskId in records {
        return false, false;
      }
      if !Verifies(signed, r, signingKey) {
        return false, false;
      }
      var weight := NumericToBigInt(operator.value.weight);
      if weight.Err? {
        return false, false;
      }
      StoreTracks(tracker, r, signingKey, weight.value, r.taskId, me);
      if signingKey != me {
        StoreKeepsOthers(tracker, r, signingKey, weight.value, me);
      }
      StoreGivesResponses(tracker, r, signingKey, weight.value);
      StoreResponseAndWeight(r, signingKey, weight.value);
      var alive := Check(r, operators, insertOk, completeOk);
      if !alive {
        return true, false;
      }
      var own := AlreadyProcessed(r.taskId, me);
      return true, !own;
    }

    // The whole handler: an accepted response that this node has not answered yet is answered as well, under the
    // same gates as any request, once there is a threshold.
    method ProcessResponse(m: Message, operator: Option<Sender>, operators: map<Key, string>,
                           insertOk: bool, completeOk: bool, own: ProcessCalls)
      returns (stored: bool)
      modifies this`tracker, this`records, this`tasks, this`signed, this`published
      ensures stored == old(Accepts(ConvertProtoToResponse(m), operator))
      ensures stored ==> m.msgEpoch == epoch && operator.Some? && operator.value.active
      ensures Kept() == ReceiptResult(old(Kept()), epoch, me, threshold, m, operator, operators, insertOk, completeOk,
                                      own)
      ensures !stored ==>
                && tracker == old(tracker) && records == old(records)
                && tasks == old(tasks) && signed == old(signed)
      ensures stored ==> Tracked(tracker, m.taskId, operator.value.key)
      ensures stored && threshold.Some? && Gates(RequestOf(ConvertProtoToResponse(m)), own) ==>
                Tracked(tracker, m.taskId, me)
      ensures var q := RequestOf(ConvertProtoToResponse(m));
              published == old(published) +
                if && stored && threshold.Some? && operator.value.key != me && !old(Tracked(tracker, m.taskId, me))
                   && Gates(q, own) && own.publishOk
                then [BroadcastMessage(OwnAnswer(q, own))] else []
    {
      ghost var before := Kept();
      var answer;
      stored, answer := AcceptResponse(m, operator, operators, insertOk, completeOk);
      ghost var accepted := Kept();
      if answer {
        // a panic ends this goroutine, which recovers
        var _ := Answer(RequestOf(ConvertProtoToResponse(m)), own);
      }
      ReceiptInSteps(before, epoch, me, threshold, m, operator, operators, insertOk, completeOk, own, accepted, answer,
                     Kept());
    }

    // ----- the confirmation loop -----

    method UpdateTaskToPending(task: TaskId)
      modifies this`tasks
      ensures tasks == SetStatus(old(tasks), task, Pending)
    {
      if task in tasks {
        tasks := tasks[task := tasks[task].(status := Pending)];
      }
    }

    // Move the row to pending and process it at once.
    method PromoteRow(task: TaskId, row: TaskRow, c: ProcessCalls) returns (alive: bool)
      requires task in tasks && tasks[task] == row
      modifies this`tracker, this`records, this`tasks, this`signed, this`published
      ensures task in tasks && tasks == old(tasks)[task := tasks[task]]
      ensures tasks[task] == row.(status := Pending) || (tasks[task] == row.(status := Completed) && task in records)
      ensures old(records).Keys <= records.Keys
      ensures Gates(RowRequest(task, row), c) ==> Tracked(tracker, task, me)
      ensures forall t, k :: old(Tracked(tracker, t, k)) ==> Tracked(tracker, t, k)
      ensures !alive ==> Breaks(threshold, RowRequest(task, row), c)
      ensures Kept() == AnswerResult(old(Kept()).(tasks := SetStatus(old(tasks), task, Pending)), me, threshold,
                                     RowRequest(task, row), c)
    {
      ghost var before := tasks;
      UpdateTaskToPending(task);
      alive := AnswerRow(task, row, c);
      OneRowPromoted(before, tasks, task);
    }

    // One listed row of the confirmation loop; a failing status update leaves it for the next round.
    method HandleConfirmation(task: TaskId, row: TaskRow, head: Option<nat>, updateOk: bool, c: ProcessCalls)
      returns (alive: bool)
      requires task in tasks && tasks[task] == row && row.status == Confirming
      modifies this`tracker, this`records, this`tasks, this`signed, this`published
      ensures task in tasks && Promoted(row, tasks[task], head, updateOk) && tasks == old(tasks)[task := tasks[task]]
      ensures tasks[task].status == Completed ==> task in records
      ensures old(records).Keys <= records.Keys
      ensures Confirmed(row, head) && updateOk && Gates(RowRequest(task, row), c) ==> Tracked(tracker, task, me)
      ensures forall t, k :: old(Tracked(tracker, t, k)) ==> Tracked(tracker, t, k)
      ensures !alive ==> Breaks(threshold, RowRequest(task, row), c)
      ensures Kept() == ConfirmResult(old(Kept()), me, threshold, task, row, head, updateOk, c)
    {
      if head.None? || row.block == 0 {
        return true;
      }
      if head.value < row.block + row.required || !updateOk {
        return true;
      }
      alive := PromoteRow(task, row, c);
    }

    // The same, as far as the round cares.
    method ConfirmListed(task: TaskId, row: TaskRow, head: Option<nat>, updateOk: bool, c: ProcessCalls)
      returns (alive: bool)
      requires task in tasks && tasks[task] == row && row.status == Confirming
      modifies this`tracker, this`records, this`tasks, this`signed, this`published
      ensures task in tasks && Promoted(row, tasks[task], head, updateOk) && tasks == old(tasks)[task := tasks[task]]
      ensures tasks[task].status == Completed ==> task in records
      ensures old(records).Keys <= records.Keys
      ensures Confirmed(row, head) && updateOk && Gates(RowRequest(task, row), c) ==> Tracked(tracker, task, me)
      ensures forall t, k :: old(Tracked(tracker, t, k)) ==> Tracked(tracker, t, k)
      ensures !alive ==> Breaks(threshold, RowRequest(task, row), c)
    {
      alive := HandleConfirmation(task, row, head, updateOk, c);
    }

    // The row is dealt with as the round demands.
    ghost predicate RowConfirmed(before: TaskRow, t: TaskId, head: Option<nat>, updateOk: bool, c: ProcessCalls)
      reads this
    {
      && t in tasks && Promoted(before, tasks[t], head, updateOk)
      && (Confirmed(before, head) && tasks[t].status == Completed ==> t in records)
      && (Confirmed(before, head) && updateOk && Gates(RowRequest(t, before), c) ==> Tracked(tracker, t, me))
    }

    // One round of the confirmation loop: exactly the confirming rows whose chain shows a head at or above block +
    // required, and whose status update succeeds, are promoted and processed. A row whose answer breaks may end the
    // process on the way.
    method CheckConfirmations(heads: TaskId -> Option<nat>, updateOk: TaskId -> bool, calls: TaskId -> ProcessCalls)
      returns (alive: bool)
      modifies this`tracker, this`records, this`tasks, this`signed, this`published
      ensures tasks.Keys == old(tasks).Keys
      ensures alive ==> forall t :: t in old(tasks) ==> RowConfirmed(old(tasks)[t], t, heads(t), updateOk(t), calls(t))
      ensures !alive ==> exists t :: t in old(tasks) && old(tasks)[t].status == Confirming
                                     && Breaks(threshold, RowRequest(t, old(tasks)[t]), calls(t))
    {
      var rows := tasks;
      var listed := ListTasks(Confirming);
      for i := 0 to |listed|
        invariant tasks.Keys == rows.Keys
        invariant forall t :: t in rows && t !in listed[..i] ==> tasks[t] == rows[t]
        invariant forall t :: t in listed[..i] ==> RowConfirmed(rows[t], t, heads(t), updateOk(t), calls(t))
      {
        var task := listed[i];
        assert listed[..i + 1] == listed[..i] + [task];
        assert task in listed && task !in listed[..i];
        alive := ConfirmListed(task, rows[task], heads(task), updateOk(task), calls(task));
        if !alive {
          return;
        }
      }
      assert listed[..|listed|] == listed;
      return true;
    }

    // ----- the retry loop -----

    method IncrementRetryCount(task: TaskId) returns (row: Option<TaskRow>)
      modifies this`tasks
      ensures tasks == CountRetry(old(tasks), task)
      ensures row == if task in tasks then Some(tasks[task]) else None
    {
      if task !in tasks {
        return None;
      }
      tasks := tasks[task := tasks[task].(retries := tasks[task].retries + 1)];
      return Some(tasks[task]);
    }

    method DeleteTaskByID(task: TaskId)
      modifies this`tasks
      ensures tasks == old(tasks) - {task}
    {
      tasks := tasks - {task};
    }

    // Other goroutines complete some tasks.
    method Others(completed: set<TaskId>)
      modifies this`tasks
      ensures tasks == Complete(old(tasks), completed)
    {
      tasks := map t | t in tasks :: if t in completed then tasks[t].(status := Completed) else tasks[t];
    }

    method ListTasks(status: Status) returns (listed: seq<TaskId>)
      ensures forall t :: t in listed <==> t in tasks && tasks[t].status == status
      ensures forall i, j :: 0 <= i < j < |listed| ==> listed[i] != listed[j]
    {
      listed := [];
      var rest := tasks.Keys;
      while rest != {}
        invariant rest <= tasks.Keys
        invariant forall t :: t in listed <==> t in tasks && t !in rest && tasks[t].status == status
        invariant forall i, j :: 0 <= i < j < |listed| ==> listed[i] != listed[j]
        decreases rest
      {
        var t :| t in rest;
        if tasks[t].status == status {
          listed := listed + [t];
        }
        rest := rest - {t};
      }
    }

    // One listed row of the retry loop: count the retry, then delete at the limit and drop the responses, or process
    // the row again. A count that fails leaves the row alone, a deletion that fails leaves it in the table.
    method HandleTimeout(task: TaskId, row: TaskRow, w: RetryWrites, c: ProcessCalls,
                         ghost before: map<TaskId, TaskRow>, ghost writes: TaskId -> RetryWrites,
                         ghost done: set<TaskId>)
      returns (alive: bool)
      requires PartOfRound(before, tasks, writes, done) && task in before && task !in done && writes(task) == w
      requires row == before[task]
      modifies this`tracker, this`records, this`tasks, this`signed, this`published
      ensures PartOfRound(before, tasks, writes, done + {task})
      ensures tracker.current.Keys <= old(tracker).current.Keys + {task}
      ensures w.countOk ==> LeftOrAnswered(tracker, me, task, row, c)
      ensures forall t, k :: t != task && old(Tracked(tracker, t, k)) ==> Tracked(tracker, t, k)
      ensures !alive ==> Breaks(threshold, RowRequest(task, row), c)
      ensures task in old(tasks) && Kept() == RetryResult(old(Kept()), me, threshold, task, row, w, c)
    {
      HandleOne(before, tasks, writes, done, task);
      if !w.countOk {
        return true;
      }
      var counted := IncrementRetryCount(task);
      if counted.value.retries >= MAX_RETRY_COUNT {
        if w.deleteOk {
          DeleteTaskByID(task);
        }
        CleanupTask(task);
        return true;
      }
      FinishKeepsPart(before, tasks, writes, done + {task}, task);
      alive := AnswerRow(task, row, c);
    }

    // The same, as far as the round cares.
    method RetryListed(task: TaskId, row: TaskRow, c: ProcessCalls, ghost before: map<TaskId, TaskRow>,
                       writes: TaskId -> RetryWrites, ghost done: set<TaskId>)
      returns (alive: bool)
      requires PartOfRound(before, tasks, writes, done) && task in before && task !in done && row == before[task]
      modifies this`tracker, this`records, this`tasks, this`signed, this`published
      ensures PartOfRound(before, tasks, writes, done + {task})
      ensures tracker.current.Keys <= old(tracker).current.Keys + {task}
      ensures writes(task).countOk ==> LeftOrAnswered(tracker, me, task, row, c)
      ensures forall t, k :: t != task && old(Tracked(tracker, t, k)) ==> Tracked(tracker, t, k)
      ensures !alive ==> Breaks(threshold, RowRequest(task, row), c)
    {
      alive := HandleTimeout(task, row, writes(task), c, before, writes, done);
    }

    // One round of the retry loop. completed(i) are the tasks that other goroutines complete around the i-th listed
    // row. A row counted up to the limit leaves no response behind, and one counted below it is answered if it passes
    // the gates. A row whose answer breaks may end the process on the way.
    method CheckTimeouts(writes: TaskId -> RetryWrites, calls: TaskId -> ProcessCalls, completed: nat -> set<TaskId>)
      returns (alive: bool)
      modifies this`tracker, this`records, this`tasks, this`signed, this`published
      ensures alive ==> Round(old(tasks), tasks, writes)
      ensures alive ==> forall t :: t in old(tasks) && old(tasks)[t].status == Pending && writes(t).countOk ==>
                          LeftOrAnswered(tracker, me, t, old(tasks)[t], calls(t))
      ensures !alive ==> exists t :: t in old(tasks) && old(tasks)[t].status == Pending
                                     && Breaks(threshold, RowRequest(t, old(tasks)[t]), calls(t))
    {
      var rows := tasks;
      var listed := ListTasks(Pending);
      ghost var done: set<TaskId> := {};
      for i := 0 to |listed|
        invariant forall t :: t in done <==> t in listed[..i]
        invariant done <= rows.Keys && PartOfRound(rows, tasks, writes, done)
        invariant RoundTracker(tracker, me, rows, writes, calls, done)
      {
        var task := listed[i];
        assert listed[..i + 1] == listed[..i] + [task];
        assert task in listed && task !in listed[..i];
        CompleteKeepsPart(rows, tasks, writes, done, completed(i));
        Others(completed(i));
        ghost var earlier := tracker;
        alive := RetryListed(task, rows[task], calls(task), rows, writes, done);
        if !alive {
          return;
        }
        RoundTrackerGrows(earlier, tracker, me, rows, writes, calls, done, task);
        done := done + {task};
      }
      assert listed[..|listed|] == listed;
      CompleteKeepsPart(rows, tasks, writes, done, completed(|listed|));
      Others(completed(|listed|));
      PartIsRound(rows, tasks, writes, done);
      return true;
    }
  }
}
