// Taking a request: find the block, read the value, decide between confirming and pending
// (pkg/operator/api/handlers.go).
module ApiHandling {
  import opened Basics
  import opened Decimal
  import opened Packing
  import opened BlockSearch
  import opened TaskModel
  import opened TaskMachine
  import opened TaskOutcomes
  import opened TaskProcessing

  // A validated body: a decimal key and exactly one of block number and timestamp.
  datatype Body = Body(target: string, chainId: Uint32, key: string, block: Uint64, timestamp: Uint64) {
    predicate Validated() {
      StringToBigInt(key).Some? && (block == 0 <==> timestamp != 0)
    }
  }

  // Answers of the calls made along the way: the chain's blocks for the timestamp search, its value at a block, the
  // hash behind the ids, the epoch, the head (None fails), the insert, and those of ProcessTask.
  datatype Calls = Calls(blocks: ChainView, state: nat -> Option<nat>, hash: ((Bytes, string)) -> TaskId, epoch: Uint32,
                         head: Option<nat>, createOk: bool, process: ProcessCalls)

  datatype Reply =
    | Failed
    | AlreadyCompleted(done: TaskId)
    | AlreadyThere(known: TaskId, status: Status, confirmations: nat)
    | Created(task: TaskId, row: TaskRow)
    // the row is there, but processing it panicked, and the router's recovery answers
    | Broken(task: TaskId, row: TaskRow)
  {
    predicate Made() { Created? || Broken? }
  }

  // ---------- task ids ----------

  // What generateTaskID hashes: the address and the low bytes of chain and requested block, then the key and value
  // texts. A request by timestamp has requested block 0, whichever block it resolves to.
  function TaskIdInput(b: Body, value: nat): (Bytes, string) {
    (HexToAddress(b.target) + [b.chainId % 256, b.block % 256], b.key + Print(value))
  }

  // The hashed bytes: 20 of the address, one of the chain, one of the requested block; then key and value in decimal.
  lemma TaskIdLayout(b: Body, value: nat)
    ensures var (bytes, text) := TaskIdInput(b, value);
            && |bytes| == 22 && bytes[..20] == HexToAddress(b.target)
            && bytes[20] == b.chainId % 0x100 && bytes[21] == b.block % 0x100
            && |text| >= |b.key| && text[..|b.key|] == b.key && SetString(text[|b.key|..]) == Some(value)
            && text[|b.key|..] == Print(value)
  {
    ParsePrint(value);
    assert (b.key + Print(value))[|b.key|..] == Print(value);
  }

  // Exactly when two requests get the same id. Different chains, blocks and splits of the digits can share one, so
  // that a task id stands for one tuple is an assumption on traffic.
  lemma SameTaskIdIff(a: Body, b: Body, v: nat, w: nat)
    ensures TaskIdInput(a, v) == TaskIdInput(b, w) <==>
              && HexToAddress(a.target) == HexToAddress(b.target)
              && a.chainId % 256 == b.chainId % 256 && a.block % 256 == b.block % 256
              && a.key + Print(v) == b.key + Print(w)
  {
    var s, t := TaskIdInput(a, v).0, TaskIdInput(b, w).0;
    assert s[..20] == HexToAddress(a.target) && t[..20] == HexToAddress(b.target);
    assert s[20] == a.chainId % 256 && t[20] == b.chainId % 256 && s[21] == a.block % 256 && t[21] == b.block % 256;
  }

  // Requests by timestamp for one key share an id exactly if the values agree, whatever blocks they ask about.
  lemma TimestampsShareIdIff(a: Body, b: Body, v: nat, w: nat)
    requires a.Validated() && b.Validated() && a.timestamp != 0 && b.timestamp != 0
    requires a.target == b.target && a.chainId == b.chainId && a.key == b.key
    ensures TaskIdInput(a, v) == TaskIdInput(b, w) <==> v == w
  {
    SameTaskIdIff(a, b, v, w);
    if a.key + Print(v) == b.key + Print(w) {
      assert (a.key + Print(v))[|a.key|..] == Print(v) && (b.key + Print(w))[|a.key|..] == Print(w);
      PrintInjective(v, w);
    }
  }

  // A block the request may be about: the given one, or what the search promises for the timestamp.
  ghost predicate Resolves(b: Body, blocks: ChainView, n: Uint64)
    requires blocks.HasGenesis()
  {
    if b.timestamp == 0 then n == b.block else Ideal(blocks) ==> Promised(blocks, b.chainId, b.timestamp, n)
  }

  class Handler {
    const processor: TaskProcessor

    constructor (processor: TaskProcessor)
      ensures this.processor == processor
    {
      this.processor := processor;
    }

    method ResolveBlock(b: Body, blocks: ChainView) returns (r: Option<Uint64>)
      requires blocks.HasGenesis() && |blocks.times| <= TWO_64
      ensures r.Some? ==> Resolves(b, blocks, r.value)
      ensures r.None? ==> b.timestamp != 0 && !blocks.Available()
    {
      if b.timestamp == 0 {
        return Some(b.block);
      }
      var found := TimestampToBlockNumber(blocks, b.chainId, b.timestamp);
      match found {
        case Ok(block) => return Some(block);
        case Err(_) => return None;
      }
    }

    // The row goes in, and a pending one is answered; alive is false when that panics.
    method CreateTask(task: TaskId, row: TaskRow, c: ProcessCalls) returns (alive: bool)
      modifies processor
      ensures var q, added := RowRequest(task, row), old(processor.tasks)[task := row];
              && processor.Kept()
                 == CreateResult(old(processor.Kept()), processor.me, processor.threshold, task, row, c)
              && if row.status == Pending then
                && alive == !Panics(old(processor.Kept()), processor.me, processor.threshold, q, c)
                && (processor.tasks == added || processor.tasks == SetStatus(added, task, Completed))
                && processor.published == old(processor.published) + old(processor.Published(q, c))
              else
                && alive && processor.tasks == added && processor.records == old(processor.records)
                && processor.tracker == old(processor.tracker) && processor.signed == old(processor.signed)
                && processor.published == old(processor.published)
      ensures processor.threshold == old(processor.threshold) && processor.epoch == old(processor.epoch)
    {
      processor.tasks := processor.tasks[task := row];
      alive := true;
      if row.status == Pending {
        alive := processor.Answer(RowRequest(task, row), c);
      }
    }

    // A new row describes the request at the resolved block and replaces nothing. Known requests and failures change
    // nothing, and a row that waits for confirmations publishes nothing. A pending row is answered as any request is.
    method SendRequest(b: Body, required: nat, c: Calls) returns (reply: Reply)
      requires b.Validated() && c.blocks.HasGenesis() && |c.blocks.times| <= TWO_64
      modifies processor
      ensures reply.AlreadyCompleted? ==>
                && reply.done in old(processor.records)
                && exists n: Uint64 :: Resolves(b, c.blocks, n) && c.state(n).Some?
                                     && reply.done == c.hash(TaskIdInput(b, c.state(n).value))
      ensures reply.AlreadyThere? ==>
                && reply.known in processor.tasks && reply.known !in processor.records
                && processor.tasks[reply.known].status == reply.status
                && processor.tasks[reply.known].required == reply.confirmations
                && exists n: Uint64 :: Resolves(b, c.blocks, n) && c.state(n).Some?
                                     && reply.known == c.hash(TaskIdInput(b, c.state(n).value))
      ensures reply.Failed? ==> c.head.None? || !c.createOk || (b.timestamp != 0 && !c.blocks.Available())
                                || exists n: Uint64 :: Resolves(b, c.blocks, n) && c.state(n).None?
      ensures reply.Made() ==>
                && reply.row.target == b.target && reply.row.chainId == b.chainId && reply.row.epoch == c.epoch
                && Some(reply.row.key) == StringToBigInt(b.key)
                && c.state(reply.row.block) == Some(reply.row.value)
                && reply.row.required == required && reply.row.retries == 0 && c.head.Some?
                && reply.row.status == (if c.head.value >= reply.row.block + required then Pending else Confirming)
                && Resolves(b, c.blocks, reply.row.block) && (b.timestamp == 0 ==> reply.row.block == b.block)
                && reply.task == c.hash(TaskIdInput(b, c.state(reply.row.block).value))
                && reply.task !in old(processor.tasks) && reply.task !in old(processor.records)
      ensures reply.Made() ==>
                var added := old(processor.tasks)[reply.task := reply.row];
                processor.tasks == added
                || (reply.row.status == Pending && processor.tasks == SetStatus(added, reply.task, Completed))
      ensures reply.Made() && reply.row.status == Pending ==>
                var q := RowRequest(reply.task, reply.row);
                && processor.published == old(processor.published) + old(processor.Published(q, c.process))
                && processor.Kept() == CreateResult(old(processor.Kept()), processor.me, processor.threshold,
                                                    reply.task, reply.row, c.process)
      ensures reply.Made() ==>
                (reply.Broken? <==>
                   && reply.row.status == Pending
                   && Panics(old(processor.Kept()), processor.me, processor.threshold,
                             RowRequest(reply.task, reply.row), c.process))
      ensures !reply.Made() ==> processor.tasks == old(processor.tasks)
      ensures !(reply.Made() && reply.row.status == Pending) ==>
                && processor.records == old(processor.records) && processor.tracker == old(processor.tracker)
                && processor.published == old(processor.published) && processor.signed == old(processor.signed)
      ensures processor.threshold == old(processor.threshold) && processor.epoch == old(processor.epoch)
    {
      var resolved := ResolveBlock(b, c.blocks);
      if resolved.None? {
        return Failed;
      }
      var blockNumber := resolved.value;
      var keyBig := StringToBigInt(b.key);
      var value := c.state(blockNumber);
      if value.None? {
        return Failed;
      }
      var task := c.hash(TaskIdInput(b, value.value));
      if task in processor.records {
        return AlreadyCompleted(task);
      }
      if task in processor.tasks {
        return AlreadyThere(task, processor.tasks[task].status, processor.tasks[task].required);
      }
      if c.head.None? {
        return Failed;
      }
      var status := Pending;
      if c.head.value < blockNumber + required {
        status := Confirming;
      }
      if !c.createOk {
        return Failed;
      }
      var row := TaskRow(b.target, b.chainId, blockNumber, keyBig.value, value.value, c.epoch, status, required, 0);
      var alive := CreateTask(task, row, c.process);
      return if alive then Created(task, row) else Broken(task, row);
    }
  }
}
