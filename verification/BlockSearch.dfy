// TimestampToBlockNumber: jump back by the average block time, then walk to the nearest block
// (pkg/common/utils.go).
module BlockSearch {
  import opened Basics

  // A chain client's answers: block times from genesis to the head, which head and blocks cannot be fetched.
  datatype ChainView = ChainView(times: seq<Uint64>, headOk: bool, missing: set<nat>) {
    predicate HasGenesis() { |times| > 0 }

    function Head(): nat
      requires HasGenesis()
    {
      |times| - 1
    }

    // Only existing blocks may be asked for.
    function BlockTime(n: nat): Option<Uint64>
      requires n < |times|
    {
      if n in missing then None else Some(times[n])
    }

    predicate Available() { headOk && missing == {} }

    predicate Nondecreasing() { forall i, j :: 0 <= i < j < |times| ==> times[i] <= times[j] }
  }

  datatype SearchError = HeadUnavailable | BlockUnavailable

  // floor(seconds / average block time), with averages 2, 3 and 25/2 seconds.
  function BlocksIn(chainId: nat, seconds: nat): nat {
    match chainId
    case 137 => seconds / 2
    case 56 => seconds / 3
    case _ => 2 * seconds / 25
  }

  // The whole number of average block times in that many seconds.
  lemma BlocksInMeans(chainId: nat, seconds: nat)
    ensures var b := BlocksIn(chainId, seconds);
            match chainId
            case 137 => 2 * b <= seconds < 2 * (b + 1)
            case 56 => 3 * b <= seconds < 3 * (b + 1)
            case _ => 25 * b <= 2 * seconds < 25 * (b + 1)
  {
  }

  function Distance(a: nat, b: nat): nat { if a <= b then b - a else a - b }

  // ---------- what is promised ----------

  // No block is closer in time.
  predicate Nearest(times: seq<Uint64>, timestamp: nat, n: nat) {
    n < |times| && forall j :: 0 <= j < |times| ==> Distance(times[n], timestamp) <= Distance(times[j], timestamp)
  }

  // Between two blocks at equal distance the later one is chosen.
  predicate TieToLater(times: seq<Uint64>, timestamp: nat, n: nat) {
    forall j | 0 <= j < |times| - 1 && times[j] < timestamp < times[j + 1] ::
      Distance(times[j], timestamp) == Distance(times[j + 1], timestamp) ==> n == j + 1
  }

  // Whether the jumps from block n run past genesis.
  predicate Clamps(times: seq<Uint64>, chainId: nat, timestamp: nat, n: nat)
    requires n < |times|
  {
    times[n] > timestamp &&
    var back := BlocksIn(chainId, times[n] - timestamp);
    back >= 1 && (n <= back || Clamps(times, chainId, timestamp, n - back))
  }

  // Genesis is the right answer: no later block lies within twice the distance from it.
  predicate GenesisNearest(times: seq<Uint64>, timestamp: nat)
    requires |times| > 0
  {
    timestamp <= times[0]
    || forall j :: 0 <= j < |times| ==> times[j] == times[0] || times[j] - times[0] >= 2 * (timestamp - times[0])
  }

  // Blocks come no slower than the average assumed for the chain.
  predicate Paced(times: seq<Uint64>, chainId: nat) {
    forall n :: 0 <= n < |times| ==>
      match chainId
      case 137 => times[n] - times[0] <= 2 * n
      case 56 => times[n] - times[0] <= 3 * n
      case _ => 2 * (times[n] - times[0]) <= 25 * n
  }

  lemma GenesisNearestMeans(c: ChainView, timestamp: nat)
    requires c.HasGenesis() && c.Nondecreasing()
    ensures GenesisNearest(c.times, timestamp) <==> Nearest(c.times, timestamp, 0)
  {
    var times := c.times;
    if Nearest(times, timestamp, 0) && timestamp > times[0] {
      forall j | 0 <= j < |times| ensures times[j] == times[0] || times[j] - times[0] >= 2 * (timestamp - times[0]) {
        assert Distance(times[0], timestamp) <= Distance(times[j], timestamp);
      }
    }
  }

  // On a paced chain the jumps only run past genesis when the timestamp is not after it.
  lemma {:induction false} PacedClampsBeforeGenesis(times: seq<Uint64>, chainId: nat, timestamp: nat, n: nat)
    requires n < |times| && Paced(times, chainId) && Clamps(times, chainId, timestamp, n)
    ensures timestamp <= times[0]
    decreases n
  {
    var back := BlocksIn(chainId, times[n] - timestamp);
    if n > back {
      PacedClampsBeforeGenesis(times, chainId, timestamp, n - back);
    }
  }

  // Pacing is needed: a chain slower than its average sends a timestamp near the head to genesis.
  lemma UnpacedChainMissesNearest()
    ensures var times: seq<Uint64> := [0, 100, 200];
            Clamps(times, 137, 150, 2) && !GenesisNearest(times, 150) && !Nearest(times, 150, 0)
  {
    var times: seq<Uint64> := [0, 100, 200];
    assert Distance(times[0], 150) > Distance(times[1], 150);
    assert times[1] - times[0] < 2 * (150 - times[0]);
  }

  // What the search promises of block n when every fetch succeeds and block times never decrease: n is nearest
  // exactly if the jumps stay above genesis or genesis is nearest anyway, and ties go to the later block.
  ghost predicate Promised(c: ChainView, chainId: nat, timestamp: nat, n: nat)
    requires c.HasGenesis()
  {
    var clamps := Clamps(c.times, chainId, timestamp, c.Head());
    && (Nearest(c.times, timestamp, n) <==> (clamps ==> GenesisNearest(c.times, timestamp)))
    && (!clamps ==> TieToLater(c.times, timestamp, n))
    && (Paced(c.times, chainId) ==> Nearest(c.times, timestamp, n) && TieToLater(c.times, timestamp, n))
  }

  ghost predicate Ideal(c: ChainView) { c.HasGenesis() && c.Available() && c.Nondecreasing() }

  // ---------- with blocks that cannot be fetched ----------

  // Where the jumps lead: to a block, past genesis, or to one that cannot be fetched.
  datatype Landing = At(n: nat) | Genesis | Unfetched

  function Land(c: ChainView, chainId: nat, timestamp: nat, n: nat): Landing
    requires n < |c.times|
  {
    if n in c.missing then Unfetched
    else if c.times[n] <= timestamp then At(n)
    else
      var back := BlocksIn(chainId, c.times[n] - timestamp);
      if back < 1 then At(n) else if n <= back then Genesis else Land(c, chainId, timestamp, n - back)
  }

  // The jumps lead to a block that can be fetched and is before the timestamp or less than an average block time
  // after it.
  lemma {:induction false} LandsClose(c: ChainView, chainId: nat, timestamp: nat, n: nat)
    requires n < |c.times| && Land(c, chainId, timestamp, n).At?
    ensures var at := Land(c, chainId, timestamp, n).n;
            && at <= n && at !in c.missing
            && (c.times[at] > timestamp ==>
                  match chainId
                  case 137 => c.times[at] - timestamp < 2
                  case 56 => c.times[at] - timestamp < 3
                  case _ => 2 * (c.times[at] - timestamp) < 25)
    decreases n
  {
    if c.times[n] > timestamp {
      var back := BlocksIn(chainId, c.times[n] - timestamp);
      BlocksInMeans(chainId, c.times[n] - timestamp);
      if back >= 1 {
        LandsClose(c, chainId, timestamp, n - back);
      }
    }
  }

  lemma {:induction false} LandsUnlessClamped(c: ChainView, chainId: nat, timestamp: nat, n: nat)
    requires n < |c.times| && c.missing == {}
    ensures if Clamps(c.times, chainId, timestamp, n) then Land(c, chainId, timestamp, n) == Genesis
            else Land(c, chainId, timestamp, n).At?
    decreases n
  {
    if c.times[n] > timestamp {
      var back := BlocksIn(chainId, c.times[n] - timestamp);
      if 1 <= back < n {
        LandsUnlessClamped(c, chainId, timestamp, n - back);
      }
    }
  }

  // Every block from one to the other can be fetched.
  predicate Reaches(c: ChainView, a: nat, b: nat) {
    && a < |c.times| && b < |c.times|
    && forall j :: (a <= j <= b || b <= j <= a) ==> j !in c.missing
  }

  // Of the blocks that the walk can reach from where the jumps lead, the nearest, and of two equally near neighbours
  // the later.
  predicate NearestReached(c: ChainView, timestamp: nat, start: nat, n: nat) {
    && Reaches(c, start, n)
    && (forall j :: 0 <= j < |c.times| && Reaches(c, start, j) ==>
          Distance(c.times[n], timestamp) <= Distance(c.times[j], timestamp))
    && (forall j | 0 <= j < |c.times| - 1 && Reaches(c, start, j) && Reaches(c, start, j + 1)
                   && c.times[j] < timestamp < c.times[j + 1] ::
          Distance(c.times[j], timestamp) == Distance(c.times[j + 1], timestamp) ==> n == j + 1)
  }

  // ---------- the ways the search ends ----------

  lemma StopsBetween(c: ChainView, timestamp: nat, start: nat, n: nat)
    requires c.Nondecreasing() && n + 1 < |c.times| && c.times[n] < timestamp < c.times[n + 1]
    requires Reaches(c, start, n) && Reaches(c, start, n + 1)
    ensures NearestReached(c, timestamp, start,
                           if timestamp - c.times[n] < c.times[n + 1] - timestamp then n else n + 1)
  {
    var times := c.times;
    var chosen := if timestamp - times[n] < times[n + 1] - timestamp then n else n + 1;
    forall j | 0 <= j < |times| ensures Distance(times[chosen], timestamp) <= Distance(times[j], timestamp) {
      assert times[j] <= times[n] || times[j] >= times[n + 1] by { assert j <= n || j >= n + 1; }
    }
    forall j | 0 <= j < |times| - 1 ensures times[j] < timestamp < times[j + 1] ==> j == n {
      assert j < n ==> times[j + 1] <= times[n];
      assert j > n ==> times[n + 1] <= times[j];
    }
  }

  // Exactly on time; before the timestamp with no later block to fetch; or after it with no earlier one.
  predicate Stops(c: ChainView, timestamp: nat, start: nat, n: nat) {
    && Reaches(c, start, n)
    && (|| c.times[n] == timestamp
        || (start <= n && c.times[n] < timestamp && (n == |c.times| - 1 || n + 1 in c.missing))
        || (n <= start && c.times[n] > timestamp && (n == 0 || n - 1 in c.missing)))
  }

  lemma StopsAt(c: ChainView, timestamp: nat, start: nat, n: nat)
    requires c.Nondecreasing() && Stops(c, timestamp, start, n)
    ensures NearestReached(c, timestamp, start, n)
  {
    var times := c.times;
    forall j | 0 <= j < |times| && Reaches(c, start, j)
      ensures Distance(times[n], timestamp) <= Distance(times[j], timestamp)
      ensures times[n] < timestamp ==> j <= n
      ensures times[n] > timestamp ==> n <= j
    {
      assert j < n ==> times[j] <= times[n];
      assert j > n ==> times[n] <= times[j];
    }
    forall j | 0 <= j < |times| - 1 && Reaches(c, start, j) && Reaches(c, start, j + 1)
      ensures !(times[j] < timestamp < times[j + 1])
    {
      assert j < n ==> times[j + 1] <= times[n];
      assert j > n ==> times[n] <= times[j];
    }
  }

  lemma ReachesAll(c: ChainView, start: nat)
    requires c.missing == {} && start < |c.times|
    ensures forall j :: 0 <= j < |c.times| ==> Reaches(c, start, j)
  {
  }

  // With every block at hand that is what is promised.
  lemma PromiseKept(c: ChainView, chainId: nat, timestamp: nat, r: Result<nat, SearchError>)
    requires Ideal(c)
    requires match Land(c, chainId, timestamp, c.Head())
             case At(start) => r.Ok? && NearestReached(c, timestamp, start, r.value)
             case Genesis => r == Ok(0)
             case Unfetched => r == Err(BlockUnavailable)
    ensures r.Ok? && Promised(c, chainId, timestamp, r.value)
  {
    LandsUnlessClamped(c, chainId, timestamp, c.Head());
    if Clamps(c.times, chainId, timestamp, c.Head()) {
      EndsClamped(c, chainId, timestamp);
    } else {
      LandsClose(c, chainId, timestamp, c.Head());
      ReachesAll(c, Land(c, chainId, timestamp, c.Head()).n);
    }
  }

  lemma EndsClamped(c: ChainView, chainId: nat, timestamp: nat)
    requires Ideal(c) && Clamps(c.times, chainId, timestamp, c.Head())
    ensures Promised(c, chainId, timestamp, 0)
  {
    GenesisNearestMeans(c, timestamp);
    if Paced(c.times, chainId) {
      PacedClampsBeforeGenesis(c.times, chainId, timestamp, c.Head());
      assert forall j :: 0 <= j < |c.times| ==> c.times[0] <= c.times[j];
    }
  }

  // ---------- the search ----------

  // Without the head, or a block that the jumps ask for, the search fails; past genesis it answers genesis; otherwise
  // it answers the nearest block that can be reached from where the jumps lead.
  method TimestampToBlockNumber(c: ChainView, chainId: nat, timestamp: Uint64) returns (r: Result<nat, SearchError>)
    requires c.HasGenesis()
    ensures r.Ok? ==> r.value <= c.Head()
    ensures !c.headOk ==> r == Err(HeadUnavailable)
    ensures c.headOk ==>
              match Land(c, chainId, timestamp, c.Head())
              case Unfetched => r == Err(BlockUnavailable)
              case Genesis => r == Ok(0)
              case At(start) =>
                r.Ok? && Reaches(c, start, r.value)
                && (c.Nondecreasing() ==> NearestReached(c, timestamp, start, r.value))
    ensures c.Available() ==> r.Ok?
    ensures Ideal(c) ==> Promised(c, chainId, timestamp, r.value)
  {
    if !c.headOk {
      return Err(HeadUnavailable);
    }
    r := Search(c, chainId, timestamp);
    if Ideal(c) {
      PromiseKept(c, chainId, timestamp, r);
    }
    if c.Available() {
      LandsUnlessClamped(c, chainId, timestamp, c.Head());
    }
  }

  // The three passes, once the head is known.
  method Search(c: ChainView, chainId: nat, timestamp: Uint64) returns (r: Result<nat, SearchError>)
    requires c.HasGenesis() && c.headOk
    ensures r.Ok? ==> r.value <= c.Head()
    ensures match Land(c, chainId, timestamp, c.Head())
            case Unfetched => r == Err(BlockUnavailable)
            case Genesis => r == Ok(0)
            case At(start) =>
              r.Ok? && Reaches(c, start, r.value)
              && (c.Nondecreasing() ==> NearestReached(c, timestamp, start, r.value))
  {
    var current := c.Head();
    var fetched := c.BlockTime(current);
    if fetched.None? {
      return Err(BlockUnavailable);
    }
    var blockNumber, time := current, fetched.value;
    ghost var landing := Land(c, chainId, timestamp, current);

    // First pass: jump back by the average block time. Past genesis the number is clamped, the time is not refreshed.
    while time > timestamp
      invariant 0 <= blockNumber <= current && time == c.times[blockNumber] && blockNumber !in c.missing
      invariant Land(c, chainId, timestamp, blockNumber) == landing
      decreases blockNumber
    {
      var back := BlocksIn(chainId, time - timestamp);
      if back < 1 {
        break;
      }
      if blockNumber <= back {
        blockNumber := 0;
        break;
      }
      blockNumber := blockNumber - back;
      fetched := c.BlockTime(blockNumber);
      if fetched.None? {
        return Err(BlockUnavailable);
      }
      time := fetched.value;
    }
    assert landing == Genesis ==> blockNumber == 0 && time > timestamp;
    assert landing != Genesis ==> landing == At(blockNumber) && time == c.times[blockNumber];
    ghost var start := blockNumber;

    // Second pass: walk forward while before the timestamp.
    while time < timestamp
      invariant start <= blockNumber <= current
      invariant if landing == Genesis then blockNumber == 0 && time > timestamp
                else time == c.times[blockNumber] && Reaches(c, start, blockNumber)
      invariant time > timestamp ==> blockNumber == start
      decreases current - blockNumber
    {
      var next := blockNumber + 1;
      if next > current {
        break;
      }
      fetched := c.BlockTime(next);
      if fetched.None? {
        break;
      }
      assert Reaches(c, start, next);
      if fetched.value > timestamp {
        if c.Nondecreasing() {
          StopsBetween(c, timestamp, start, blockNumber);
        }
        if timestamp - time < fetched.value - timestamp {
          return Ok(blockNumber);
        }
        return Ok(next);
      }
      time, blockNumber := fetched.value, next;
    }
    assert time < timestamp ==> Stops(c, timestamp, start, blockNumber);

    // Third pass: walk backward while after the timestamp.
    while time > timestamp
      invariant 0 <= blockNumber <= current
      invariant if landing == Genesis then blockNumber == 0 && time > timestamp
                else time == c.times[blockNumber] && Reaches(c, start, blockNumber)
      invariant time > timestamp ==> blockNumber <= start
      invariant time < timestamp ==> Stops(c, timestamp, start, blockNumber)
      decreases blockNumber
    {
      if blockNumber == 0 {
        break;
      }
      var previous := blockNumber - 1;
      fetched := c.BlockTime(previous);
      if fetched.None? {
        break;
      }
      assert Reaches(c, start, previous);
      if fetched.value < timestamp {
        if c.Nondecreasing() {
          StopsBetween(c, timestamp, start, previous);
        }
        if timestamp - fetched.value < time - timestamp {
          return Ok(previous);
        }
        return Ok(blockNumber);
      }
      time, blockNumber := fetched.value, previous;
    }
    if landing != Genesis && c.Nondecreasing() {
      StopsAt(c, timestamp, start, blockNumber);
    }
    return Ok(blockNumber);
  }
}
