// Block-to-epoch arithmetic (pkg/common/utils.go, pkg/operator/epoch/helpers.go, mock/src/MockEpochManager.sol).
module EpochMath {
  import opened Basics

  const GENESIS_BLOCK: Uint64 := 7698497
  const EPOCH_PERIOD: Uint64 := 12
  const GRACE_PERIOD: Uint64 := 3

  // "No exit epoch": the largest uint32.
  const NO_EXIT: Uint32 := 4294967295

  // Fixed-width arithmetic as Go performs it.
  function Add64(a: Uint64, b: Uint64): Uint64 { (a + b) % TWO_64 }

  function Sub64(a: Uint64, b: Uint64): Uint64 { (a - b) % TWO_64 }

  function Mul64(a: Uint64, b: Uint64): Uint64 { (a * b) % TWO_64 }

  function ToUint32(a: Uint64): Uint32 { a % TWO_32 }

  function CalculateCurrentEpochNumber(block: Uint64): Uint32 {
    ToUint32(Sub64(block, GENESIS_BLOCK) / EPOCH_PERIOD)
  }

  function GetEffectiveEpochByBlockNumber(block: Uint64): Uint32 {
    var absoluteEpoch := ToUint32(Sub64(block, GENESIS_BLOCK) / EPOCH_PERIOD);
    var epochStart := Add64(GENESIS_BLOCK, Mul64(absoluteEpoch, EPOCH_PERIOD));
    var epochEnd := Add64(epochStart, EPOCH_PERIOD);
    var isGracePeriod := block >= Sub64(epochEnd, GRACE_PERIOD);
    if isGracePeriod then (absoluteEpoch + 2) % TWO_32 else (absoluteEpoch + 1) % TWO_32
  }

  function EpochStart(epoch: Uint32): Uint64 { GENESIS_BLOCK + epoch * EPOCH_PERIOD }

  function IsOperatorActive(block: Uint64, activeEpoch: Uint32, exitEpoch: Uint32): bool {
    var activeStart, exitStart := EpochStart(activeEpoch), EpochStart(exitEpoch);
    if activeEpoch == exitEpoch then false
    else if exitEpoch == NO_EXIT then block >= activeStart
    else if exitEpoch > activeEpoch then activeStart <= block < exitStart
    else if block < exitStart then true
    else if exitStart <= block <= activeStart then false
    else true
  }

  // Blocks from genesis on whose epochs stay clear of the uint32 limit.
  predicate Scheduled(block: Uint64) {
    GENESIS_BLOCK <= block && (block - GENESIS_BLOCK) / EPOCH_PERIOD + 3 < NO_EXIT
  }

  lemma CurrentEpochSpan(block: Uint64)
    requires Scheduled(block)
    ensures var e := CalculateCurrentEpochNumber(block);
            e == (block - GENESIS_BLOCK) / EPOCH_PERIOD && EpochStart(e) <= block < EpochStart(e) + EPOCH_PERIOD
  {
  }

  // The rounding behind the grace period: shift by the grace length, then round down.
  lemma EffectiveEpochClosedForm(block: Uint64)
    requires Scheduled(block)
    ensures GetEffectiveEpochByBlockNumber(block) == (block - GENESIS_BLOCK + GRACE_PERIOD) / EPOCH_PERIOD + 1
    ensures GetEffectiveEpochByBlockNumber(block) == (block - 7698497 + 3) / 12 + 1
  {
    EffectiveByRemainder(block);
    ShiftedQuotient(block - GENESIS_BLOCK);
  }

  // No wrap-around happens, and the grace period is the end of the epoch.
  lemma EffectiveByRemainder(block: Uint64)
    requires Scheduled(block)
    ensures var x := block - GENESIS_BLOCK;
            GetEffectiveEpochByBlockNumber(block)
            == x / EPOCH_PERIOD + if x % EPOCH_PERIOD >= EPOCH_PERIOD - GRACE_PERIOD then 2 else 1
  {
    var x: nat := block - GENESIS_BLOCK;
    var q, r := x / EPOCH_PERIOD, x % EPOCH_PERIOD;
    assert x == EPOCH_PERIOD * q + r;
    assert Sub64(block, GENESIS_BLOCK) == x && ToUint32(q) == q;
    var start := Add64(GENESIS_BLOCK, Mul64(q, EPOCH_PERIOD));
    assert start == block - r;
    assert Sub64(Add64(start, EPOCH_PERIOD), GRACE_PERIOD) == block - r + EPOCH_PERIOD - GRACE_PERIOD;
  }

  lemma ShiftedQuotient(x: nat)
    ensures (x + GRACE_PERIOD) / EPOCH_PERIOD
         == x / EPOCH_PERIOD + if x % EPOCH_PERIOD >= EPOCH_PERIOD - GRACE_PERIOD then 1 else 0
  {
  }

  // An epoch change announced at a block takes effect one or two epochs on, always more than the grace period and
  // never more than a period and a grace period later.
  lemma EffectiveEpochBounds(block: Uint64)
    requires Scheduled(block)
    ensures var now, effective := CalculateCurrentEpochNumber(block), GetEffectiveEpochByBlockNumber(block);
            && now + 1 <= effective <= now + 2 < NO_EXIT
            && GRACE_PERIOD < EpochStart(effective) - block <= EPOCH_PERIOD + GRACE_PERIOD
  {
    CurrentEpochSpan(block);
    EffectiveEpochClosedForm(block);
  }

  // What the grace period is for: an event still takes effect after an epoch exactly if it comes no earlier than a
  // grace period before that epoch starts.
  lemma EffectiveAfterIff(block: Uint64, epoch: Uint32)
    requires Scheduled(block)
    ensures GetEffectiveEpochByBlockNumber(block) > epoch <==> block + GRACE_PERIOD >= EpochStart(epoch)
  {
    EffectiveEpochClosedForm(block);
    Quotient(block - GENESIS_BLOCK + GRACE_PERIOD, epoch);
  }

  lemma Quotient(x: nat, q: nat)
    ensures x / EPOCH_PERIOD >= q <==> x >= q * EPOCH_PERIOD
  {
  }

  lemma EffectiveEpochMonotone(a: Uint64, b: Uint64)
    requires Scheduled(a) && Scheduled(b) && a <= b
    ensures CalculateCurrentEpochNumber(a) <= CalculateCurrentEpochNumber(b)
    ensures GetEffectiveEpochByBlockNumber(a) <= GetEffectiveEpochByBlockNumber(b)
  {
    CurrentEpochSpan(a);
    CurrentEpochSpan(b);
    EffectiveEpochClosedForm(a);
    EffectiveEpochClosedForm(b);
    PeriodsMonotone(a - GENESIS_BLOCK, b - GENESIS_BLOCK);
    PeriodsMonotone(a - GENESIS_BLOCK + GRACE_PERIOD, b - GENESIS_BLOCK + GRACE_PERIOD);
  }

  lemma PeriodsMonotone(x: nat, y: nat)
    requires x <= y
    ensures x / EPOCH_PERIOD <= y / EPOCH_PERIOD
  {
  }

  // ---------- agreement with the epoch manager contract ----------

  // Checked uint32 addition: None is a revert.
  function CheckedAdd32(a: Uint32, b: Uint32): Option<Uint32> {
    if a + b < TWO_32 then Some(a + b) else None
  }

  function GetEffectiveEpochForBlock(genesis: Uint64, block: Uint64): Option<Uint32> {
    if block < genesis then None
    else
      var absoluteEpoch := ToUint32((block - genesis) / EPOCH_PERIOD);
      var epochStart := genesis + absoluteEpoch * EPOCH_PERIOD;
      var epochEnd := epochStart + EPOCH_PERIOD;
      if epochEnd >= TWO_64 then None
      else CheckedAdd32(absoluteEpoch, if block >= epochEnd - GRACE_PERIOD then 2 else 1)
  }

  function GetEpochInterval(genesis: Uint64, epoch: Uint32): Option<(Uint64, Uint64, Uint64)> {
    var start := genesis + epoch * EPOCH_PERIOD;
    var end := start + EPOCH_PERIOD;
    if end >= TWO_64 then None else Some((start, end - GRACE_PERIOD, end))
  }

  // Deployed at the configured genesis, contract and node compute the same effective epoch.
  lemma ContractAgrees(block: Uint64)
    requires Scheduled(block)
    ensures GetEffectiveEpochForBlock(GENESIS_BLOCK, block) == Some(GetEffectiveEpochByBlockNumber(block))
  {
    EffectiveByRemainder(block);
    var x: nat := block - GENESIS_BLOCK;
    var q, r := x / EPOCH_PERIOD, x % EPOCH_PERIOD;
    assert x == EPOCH_PERIOD * q + r && ToUint32(q) == q;
    assert GENESIS_BLOCK + q * EPOCH_PERIOD == block - r;
  }

  // The contract's interval of an epoch is where that epoch is current, and its grace block is where the effective
  // epoch moves on.
  lemma IntervalMeaning(block: Uint64, epoch: Uint32)
    requires Scheduled(block) && epoch + 3 < NO_EXIT
    ensures GetEpochInterval(GENESIS_BLOCK, epoch)
         == Some((7698497 + 12 * epoch, 7698497 + 12 * epoch + 9, 7698497 + 12 * epoch + 12))
    ensures var (start, grace, end) := GetEpochInterval(GENESIS_BLOCK, epoch).value;
            && (CalculateCurrentEpochNumber(block) == epoch <==> start <= block < end)
            && (start <= block < end ==>
                  (GetEffectiveEpochByBlockNumber(block) == epoch + 2 <==> grace <= block))
  {
    CurrentEpochSpan(block);
    EffectiveEpochClosedForm(block);
  }

  // ---------- activity ----------

  // A row written by events handled in block order.
  predicate InOrderRow(active: Uint32, exit: Uint32) { exit == NO_EXIT || exit >= active }

  // Active from the start of the active epoch to the start of the exit epoch.
  predicate InService(epoch: Uint32, active: Uint32, exit: Uint32) {
    active <= epoch && (exit == NO_EXIT || epoch < exit)
  }

  lemma IsOperatorActiveInOrder(block: Uint64, active: Uint32, exit: Uint32)
    requires Scheduled(block) && InOrderRow(active, exit) && active != NO_EXIT
    ensures IsOperatorActive(block, active, exit) <==> InService(CalculateCurrentEpochNumber(block), active, exit)
    ensures IsOperatorActive(block, active, exit) <==>
              && active <= CalculateCurrentEpochNumber(block)
              && (exit == 0xFFFF_FFFF || CalculateCurrentEpochNumber(block) < exit)
  {
    CurrentEpochSpan(block);
  }

  // Every other row reads "left, then came back": out of service in [exit, active) only. The code agrees with
  // that reading everywhere except at the first block of the active epoch.
  lemma IsOperatorActiveReturning(block: Uint64, active: Uint32, exit: Uint32)
    requires Scheduled(block) && !InOrderRow(active, exit)
    ensures var e := CalculateCurrentEpochNumber(block);
            (IsOperatorActive(block, active, exit) <==> !(exit <= e < active)) <==> block != EpochStart(active)
  {
    CurrentEpochSpan(block);
  }
}
