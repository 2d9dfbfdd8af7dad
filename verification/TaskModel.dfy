// What an operator node keeps about attestation tasks: responses, their tracker, task rows and consensus records
// (pkg/operator/task, pkg/repos/tasks, pkg/repos/consensus_responses).
module TaskModel {
  import opened Basics
  import opened Decimal
  import opened Packing
  import opened KeyOrder

  type TaskId = string

  // The text form of a signing address.
  type Key = string

  // ---------- responses on the wire ----------

  datatype Response = Response(taskId: TaskId, signature: Bytes, epoch: Uint32, chainId: Uint32, target: string,
                               key: string, value: string, block: Uint64)

  // The published message carries the same fields under its own names.
  datatype Message = Message(taskId: TaskId, msgSignature: Bytes, msgValue: string, blockNumber: Uint64,
                             msgChainId: Uint32, targetAddress: string, msgKey: string, msgEpoch: Uint32)

  function BroadcastMessage(r: Response): Message {
    Message(r.taskId, r.signature, r.value, r.block, r.chainId, r.target, r.key, r.epoch)
  }

  function ConvertProtoToResponse(m: Message): Response {
    Response(m.taskId, m.msgSignature, m.msgEpoch, m.msgChainId, m.targetAddress, m.msgKey, m.msgValue, m.blockNumber)
  }

  // Nothing is lost or exchanged on the wire.
  lemma WireRoundTrip(r: Response, m: Message)
    ensures ConvertProtoToResponse(BroadcastMessage(r)) == r && BroadcastMessage(ConvertProtoToResponse(m)) == m
    ensures var w := BroadcastMessage(r);
            && w.taskId == r.taskId && w.msgSignature == r.signature && w.msgEpoch == r.epoch
            && w.msgChainId == r.chainId && w.targetAddress == r.target && w.blockNumber == r.block
            && w.msgKey == r.key && w.msgValue == r.value
  {
  }

  // What a response claims; None when its key or value is no decimal number (packing it panics).
  function ParamsOf(r: Response): Option<Params> {
    match (StringToBigInt(r.key), StringToBigInt(r.value))
    case (Some(key), Some(value)) => Some(Params(HexToAddress(r.target), r.chainId, r.block, key, value))
    case _ => None
  }

  // Ideal signatures: what each key has signed, and the bytes that came out.
  datatype Signature = Signature(key: Key, message: Bytes, bytes: Bytes)

  type SignatureLog = set<Signature>

  // Verification succeeds for exactly what was signed.
  predicate Verifies(signed: SignatureLog, r: Response, key: Key) {
    ParamsOf(r).Some? && Signature(key, Pack(ParamsOf(r).value), r.signature) in signed
  }

  // The operators row behind the key of the peer that a message came from.
  datatype Sender = Sender(active: bool, key: Key, weight: Numeric)

  // ---------- requests to sign ----------

  // The fields of a task row or response that ProcessTask is called with, numerics as the driver delivers them.
  datatype Request = Request(taskId: TaskId, target: string, chainId: Uint32, block: Uint64, key: Numeric,
                             value: Numeric, epoch: Uint32)

  function RequestOf(r: Response): Request {
    Request(r.taskId, r.target, r.chainId, r.block, StringToNumeric(r.key), StringToNumeric(r.value), r.epoch)
  }

  function RequestParams(q: Request): Option<Params> {
    match (NumericToBigInt(q.key), NumericToBigInt(q.value))
    case (Ok(key), Ok(value)) => Some(Params(HexToAddress(q.target), q.chainId, q.block, key, value))
    case _ => None
  }

  lemma RequestOfKeepsParams(r: Response)
    requires ParamsOf(r).Some?
    ensures RequestParams(RequestOf(r)) == ParamsOf(r)
    ensures var q := RequestOf(r);
            && q.taskId == r.taskId && q.epoch == r.epoch && q.target == r.target && q.chainId == r.chainId
            && q.block == r.block && q.key.valid && q.value.valid
  {
  }

  // The response ProcessTask makes once it has fetched and signed.
  function OwnResponse(q: Request, value: nat, signature: Bytes): Response {
    Response(q.taskId, signature, q.epoch, q.chainId, q.target, NumericToString(q.key), Print(value), q.block)
  }

  // End to end: an own response, carried through the message and parsed again, claims what was signed, so it passes
  // verification under the sender's key.
  lemma OwnResponseVerifies(signed: SignatureLog, q: Request, value: nat, key: Key, signature: Bytes)
    requires q.key.valid && RequestParams(q).Some? && RequestParams(q).value.value == value
    requires Signature(key, Pack(RequestParams(q).value), signature) in signed
    ensures var r := ConvertProtoToResponse(BroadcastMessage(OwnResponse(q, value, signature)));
            && ParamsOf(r) == RequestParams(q) && Verifies(signed, r, key)
            && r.taskId == q.taskId && r.epoch == q.epoch && r.target == q.target && r.chainId == q.chainId
            && r.block == q.block && r.signature == signature
  {
    StringAgreesWithBigInt(q.key);
    ParsePrint(value);
  }

  // ---------- the response tracker ----------

  // The pair of inner maps of one task. Holders of a reference keep seeing it after the outer maps drop it.
  datatype Bucket = Bucket(task: TaskId, responses: map<Key, Response>, weights: map<Key, int>)

  // The outer maps as references into the allocated buckets.
  datatype TrackerRep = TrackerRep(current: map<TaskId, nat>, buckets: seq<Bucket>) {
    predicate WellFormed() { forall t :: t in current ==> current[t] < |buckets| && buckets[current[t]].task == t }
  }

  type Tracker = t: TrackerRep | t.WellFormed() witness TrackerRep(map[], [])

  function EmptyTracker(): Tracker { TrackerRep(map[], []) }

  predicate Tracked(t: Tracker, task: TaskId, key: Key) {
    task in t.current && key in t.buckets[t.current[task]].responses
  }

  // Store a response and its weight under the lock, allocating the inner maps on first use.
  function Store(t: Tracker, r: Response, key: Key, weight: int): Tracker {
    var (current, buckets) :=
      if r.taskId in t.current then (t.current, t.buckets)
      else (t.current[r.taskId := |t.buckets|], t.buckets + [Bucket(r.taskId, map[], map[])]);
    var a := current[r.taskId];
    var b := buckets[a];
    TrackerRep(current, buckets[a := b.(responses := b.responses[key := r], weights := b.weights[key := weight])])
  }

  lemma StoreTracks(t: Tracker, r: Response, key: Key, weight: int, task: TaskId, k: Key)
    ensures Tracked(t, task, k) ==> Tracked(Store(t, r, key, weight), task, k)
    ensures Tracked(Store(t, r, key, weight), r.taskId, key)
    ensures Store(t, r, key, weight).current.Keys == t.current.Keys + {r.taskId}
  {
  }

  // What is held for a task under a key: response and weight.
  function Filed(t: Tracker, task: TaskId, key: Key): Option<(Response, Option<int>)> {
    if !Tracked(t, task, key) then None
    else
      var b := t.buckets[t.current[task]];
      Some((b.responses[key], if key in b.weights then Some(b.weights[key]) else None))
  }

  // A store files the response and its weight under that task and key, and touches nothing else.
  lemma StoreMeans(t: Tracker, r: Response, key: Key, weight: int, task: TaskId, k: Key)
    ensures Filed(Store(t, r, key, weight), task, k)
         == if task == r.taskId && k == key then Some((r, Some(weight))) else Filed(t, task, k)
  {
  }

  lemma StoreKeepsOthers(t: Tracker, r: Response, key: Key, weight: int, k: Key)
    requires k != key
    ensures Tracked(Store(t, r, key, weight), r.taskId, k) <==> Tracked(t, r.taskId, k)
  {
  }

  function Cleanup(t: Tracker, task: TaskId): Tracker { TrackerRep(t.current - {task}, t.buckets) }

  function CleanupAll(t: Tracker): Tracker { TrackerRep(map[], t.buckets) }

  // ---------- tables ----------

  datatype Status = Confirming | Pending | Completed

  datatype TaskRow = TaskRow(target: string, chainId: Uint32, block: Uint64, key: int, value: int, epoch: Uint32,
                             status: Status, required: nat, retries: nat)

  function RowParams(row: TaskRow): Params {
    Params(HexToAddress(row.target), row.chainId, row.block, row.key, row.value)
  }

  // A request read from a row: the numerics may come back in any normalisation.
  predicate ReadFrom(q: Request, task: TaskId, row: TaskRow) {
    && q.taskId == task && q.target == row.target && q.chainId == row.chainId && q.block == row.block
    && q.epoch == row.epoch && q.key.valid
    && NumericToBigInt(q.key) == Ok(row.key) && NumericToBigInt(q.value) == Ok(row.value)
  }

  // What a record was built from: the tracked responses when they were collected, the operator found for each
  // signing key, the weights when they were added up, and the threshold they were compared with.
  datatype Evidence = Evidence(responses: map<Key, Response>, operators: map<Key, string>, summed: map<Key, int>,
                               threshold: int)

  datatype Record = Record(epoch: Uint32, value: int, key: int, chainId: Uint32, block: Uint64, target: string,
                           signatures: seq<Bytes>, addresses: seq<string>, evidence: Evidence)

  function RecordParams(rec: Record): Params {
    Params(HexToAddress(rec.target), rec.chainId, rec.block, rec.key, rec.value)
  }

  // The columns of the second uniqueness constraint.
  predicate SameRequest(a: Record, b: Record) {
    a.target == b.target && a.chainId == b.chainId && a.block == b.block && a.key == b.key
  }

  // Both uniqueness constraints of the insert.
  predicate MayInsert(records: map<TaskId, Record>, task: TaskId, rec: Record) {
    task !in records && forall t :: t in records ==> !SameRequest(records[t], rec)
  }

  ghost function Signatures(responses: map<Key, Response>): seq<Bytes> {
    var keys := Sorted(responses.Keys);
    seq(|keys|, i requires 0 <= i < |keys| => if keys[i] in responses then responses[keys[i]].signature else [])
  }

  ghost function Addresses(responses: map<Key, Response>, operators: map<Key, string>): seq<string> {
    var keys := Sorted(responses.Keys);
    seq(|keys|, i requires 0 <= i < |keys| => if keys[i] in operators then operators[keys[i]] else "")
  }

  // The record a consensus check writes for the response that triggered it.
  ghost function RecordOf(r: Response, e: Evidence): Option<Record> {
    match ParamsOf(r)
    case None => None
    case Some(p) =>
      Some(Record(r.epoch, p.value, p.key, r.chainId, r.block, r.target,
                  Signatures(e.responses), Addresses(e.responses, e.operators), e))
  }
}
