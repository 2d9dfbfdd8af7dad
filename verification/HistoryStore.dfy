// The on-chain history store read by operators (mock/src/MockStateManager.sol) and its meaning: replaying the
// log of writes up to a block.
module HistoryStore {
  import opened Basics
  import opened Packing

  datatype Write = Write(user: Address, key: nat, value: nat, block: Uint64, time: Uint48)

  datatype History = History(value: nat, block: Uint64, time: Uint48)

  datatype StoreError = NoHistoryFound | BlockNotFound | TimestampNotFound | BatchTooLarge

  const MAX_BATCH_SIZE := 100

  // ---------- replay ----------

  predicate Hits(w: Write, user: Address, key: nat) { w.user == user && w.key == key }

  // The last write to the slot in block n or earlier.
  function ReplayAt(log: seq<Write>, user: Address, key: nat, n: nat): Option<Write> {
    if log == [] then None
    else
      var w := log[|log| - 1];
      if Hits(w, user, key) && w.block <= n then Some(w) else ReplayAt(log[..|log| - 1], user, key, n)
  }

  predicate Ordered(log: seq<Write>) {
    forall i, j :: 0 <= i < j < |log| ==> log[i].block <= log[j].block && log[i].time <= log[j].time
  }

  // What replay means, index by index.
  lemma {:induction false} ReplayMeaning(log: seq<Write>, user: Address, key: nat, n: nat, w: Write)
    ensures ReplayAt(log, user, key, n) == Some(w) <==>
            exists i :: 0 <= i < |log| && log[i] == w && Hits(w, user, key) && w.block <= n
                        && forall j :: i < j < |log| ==> !(Hits(log[j], user, key) && log[j].block <= n)
  {
    if log != [] {
      var front, last := log[..|log| - 1], log[|log| - 1];
      ReplayMeaning(front, user, key, n, w);
      if Hits(last, user, key) && last.block <= n {
        assert log[|log| - 1] == last;
      } else {
        if i :| 0 <= i < |front| && front[i] == w && Hits(w, user, key) && w.block <= n
                && forall j :: i < j < |front| ==> !(Hits(front[j], user, key) && front[j].block <= n) {
          assert log[i] == w;
          forall j | i < j < |log| ensures !(Hits(log[j], user, key) && log[j].block <= n) {
            assert j < |front| ==> log[j] == front[j];
          }
        }
        if i :| 0 <= i < |log| && log[i] == w && Hits(w, user, key) && w.block <= n
                && forall j :: i < j < |log| ==> !(Hits(log[j], user, key) && log[j].block <= n) {
          assert front[i] == w;
          forall j | i < j < |front| ensures !(Hits(front[j], user, key) && front[j].block <= n) {
            assert log[j] == front[j];
          }
        }
      }
    }
  }

  // Writes to other slots, or in later blocks, do not change an answer.
  lemma {:induction false} ReplayIgnores(log: seq<Write>, later: seq<Write>, user: Address, key: nat, n: nat)
    requires forall w :: w in later ==> w.user != user || w.key != key || w.block > n
    ensures ReplayAt(log + later, user, key, n) == ReplayAt(log, user, key, n)
  {
    if later == [] {
      assert log + later == log;
    } else {
      var front := later[..|later| - 1];
      ReplayIgnores(log, front, user, key, n);
      assert (log + later)[..|log| + |later| - 1] == log + front;
      assert later[|later| - 1] in later;
    }
  }

  // History is final: writes in later blocks never change an answer.
  lemma ReplayStable(log: seq<Write>, later: seq<Write>, user: Address, key: nat, n: nat)
    requires forall w :: w in later ==> w.block > n
    ensures ReplayAt(log + later, user, key, n) == ReplayAt(log, user, key, n)
  {
    ReplayIgnores(log, later, user, key, n);
  }

  // ---------- one slot's history array ----------

  function Entries(log: seq<Write>, user: Address, key: nat): seq<History> {
    if log == [] then []
    else
      var w := log[|log| - 1];
      var front := Entries(log[..|log| - 1], user, key);
      if Hits(w, user, key) then front + [History(w.value, w.block, w.time)] else front
  }

  // The value held after the whole log; 0 is the store's "does not exist".
  function Current(log: seq<Write>, user: Address, key: nat): nat {
    var h := Entries(log, user, key);
    if h == [] then 0 else h[|h| - 1].value
  }

  predicate Sorted(h: seq<History>) {
    forall i, j :: 0 <= i < j < |h| ==> h[i].block <= h[j].block && h[i].time <= h[j].time
  }

  lemma EntriesAppend(log: seq<Write>, w: Write, user: Address, key: nat)
    ensures Entries(log + [w], user, key) ==
            Entries(log, user, key) + if Hits(w, user, key) then [History(w.value, w.block, w.time)] else []
  {
    assert (log + [w])[..|log|] == log;
  }

  lemma {:induction false} EntriesFromLog(log: seq<Write>, user: Address, key: nat)
    ensures forall h :: h in Entries(log, user, key) <==>
                        exists w :: w in log && Hits(w, user, key) && h == History(w.value, w.block, w.time)
  {
    if log != [] {
      var front := log[..|log| - 1];
      EntriesFromLog(front, user, key);
      assert log == front + [log[|log| - 1]];
    }
  }

  lemma {:induction false} EntriesSorted(log: seq<Write>, user: Address, key: nat)
    requires Ordered(log)
    ensures Sorted(Entries(log, user, key))
  {
    if log != [] {
      var front, w := log[..|log| - 1], log[|log| - 1];
      EntriesSorted(front, user, key);
      EntriesFromLog(front, user, key);
      var h := Entries(front, user, key);
      forall i | 0 <= i < |h| ensures h[i].block <= w.block && h[i].time <= w.time {
        assert h[i] in h;
      }
    }
  }

  function LastAt(h: seq<History>, n: nat): Option<History> {
    if h == [] then None
    else if h[|h| - 1].block <= n then Some(h[|h| - 1])
    else LastAt(h[..|h| - 1], n)
  }

  lemma {:induction false} ReplayIsLastEntry(log: seq<Write>, user: Address, key: nat, n: nat)
    ensures LastAt(Entries(log, user, key), n) ==
            match ReplayAt(log, user, key, n)
            case None => None
            case Some(w) => Some(History(w.value, w.block, w.time))
  {
    if log != [] {
      var front, w := log[..|log| - 1], log[|log| - 1];
      ReplayIsLastEntry(front, user, key, n);
      assert log == front + [w];
      EntriesAppend(front, w, user, key);
      var h := Entries(log, user, key);
      if Hits(w, user, key) {
        assert h[..|h| - 1] == Entries(front, user, key);
      }
    }
  }

  lemma {:induction false} LastAtIndex(h: seq<History>, n: nat, i: nat)
    requires i < |h| && forall j :: i < j < |h| ==> h[j].block > n
    requires h[i].block <= n || i == 0
    ensures LastAt(h, n) == if h[i].block <= n then Some(h[i]) else None
    decreases |h|
  {
    if i < |h| - 1 {
      LastAtIndex(h[..|h| - 1], n, i);
    } else if h[i].block > n {
      assert h[..|h| - 1] == [];
    }
  }

  datatype SearchType = BlockNumber | Timestamp

  function Position(h: History, kind: SearchType): nat {
    match kind
    case BlockNumber => h.block
    case Timestamp => h.time
  }

  // The index of the last entry at or before target; 0 when there is none.
  method BinarySearch(history: seq<History>, target: nat, kind: SearchType) returns (index: nat)
    requires Sorted(history)
    ensures history == [] ==> index == 0
    ensures history != [] ==>
              && index < |history|
              && (forall j :: index < j < |history| ==> Position(history[j], kind) > target)
              && (Position(history[index], kind) <= target || index == 0)
  {
    if |history| == 0 {
      return 0;
    }
    var high, low := |history|, 0;
    while low < high
      invariant 0 <= low <= high <= |history|
      invariant forall j :: 0 <= j < low ==> Position(history[j], kind) <= target
      invariant forall j :: high <= j < |history| ==> Position(history[j], kind) > target
    {
      var mid := (low + high) / 2;
      if Position(history[mid], kind) > target {
        high := mid;
      } else {
        low := mid + 1;
      }
    }
    index := if high == 0 then 0 else high - 1;
  }

  // ---------- the contract's storage ----------

  type Slot = (Address, nat)

  function HistoryOf(histories: map<Slot, seq<History>>, slot: Slot): seq<History> {
    if slot in histories then histories[slot] else []
  }

  function CurrentOf(currentValues: map<Slot, nat>, slot: Slot): nat {
    if slot in currentValues then currentValues[slot] else 0
  }

  function KeysOf(userKeys: map<Address, seq<nat>>, user: Address): seq<nat> {
    if user in userKeys then userKeys[user] else []
  }

  ghost predicate HistoriesMatch(log: seq<Write>, h: map<Slot, seq<History>>) {
    forall u: Address, k: nat :: HistoryOf(h, (u, k)) == Entries(log, u, k)
  }

  ghost predicate CurrentMatch(log: seq<Write>, c: map<Slot, nat>) {
    forall u: Address, k: nat :: CurrentOf(c, (u, k)) == Current(log, u, k)
  }

  ghost predicate KeysMatch(log: seq<Write>, ks: map<Address, seq<nat>>) {
    forall u: Address, k: nat :: k in KeysOf(ks, u) <==> Entries(log, u, k) != []
  }

  // A write may not be older than the last one.
  predicate InOrder(log: seq<Write>, block: Uint64, time: Uint48) {
    log == [] || (log[|log| - 1].block <= block && log[|log| - 1].time <= time)
  }

  // How one write changes each stored structure.
  function PushHistory(h: map<Slot, seq<History>>, w: Write): map<Slot, seq<History>> {
    h[(w.user, w.key) := HistoryOf(h, (w.user, w.key)) + [History(w.value, w.block, w.time)]]
  }

  function PushKey(ks: map<Address, seq<nat>>, w: Write, known: bool): map<Address, seq<nat>> {
    if known then ks else ks[w.user := KeysOf(ks, w.user) + [w.key]]
  }

  lemma PushHistoryMatches(log: seq<Write>, h: map<Slot, seq<History>>, w: Write)
    requires HistoriesMatch(log, h)
    ensures HistoriesMatch(log + [w], PushHistory(h, w))
  {
    forall u: Address, k: nat ensures HistoryOf(PushHistory(h, w), (u, k)) == Entries(log + [w], u, k) {
      EntriesAppend(log, w, u, k);
      assert HistoryOf(h, (u, k)) == Entries(log, u, k);
    }
  }

  lemma PushCurrentMatches(log: seq<Write>, c: map<Slot, nat>, w: Write)
    requires CurrentMatch(log, c)
    ensures CurrentMatch(log + [w], c[(w.user, w.key) := w.value])
  {
    forall u: Address, k: nat
      ensures CurrentOf(c[(w.user, w.key) := w.value], (u, k)) == Current(log + [w], u, k)
    {
      EntriesAppend(log, w, u, k);
      assert CurrentOf(c, (u, k)) == Current(log, u, k);
    }
  }

  lemma PushKeyMatches(log: seq<Write>, ks: map<Address, seq<nat>>, w: Write, known: bool)
    requires KeysMatch(log, ks)
    requires known ==> Entries(log, w.user, w.key) != []
    ensures KeysMatch(log + [w], PushKey(ks, w, known))
  {
    forall u: Address, k: nat ensures k in KeysOf(PushKey(ks, w, known), u) <==> Entries(log + [w], u, k) != [] {
      EntriesAppend(log, w, u, k);
      assert k in KeysOf(ks, u) <==> Entries(log, u, k) != [];
    }
  }

  // All three structures together.
  ghost predicate StorageMatches(log: seq<Write>, h: map<Slot, seq<History>>, c: map<Slot, nat>,
                                 ks: map<Address, seq<nat>>)
  {
    Ordered(log) && HistoriesMatch(log, h) && CurrentMatch(log, c) && KeysMatch(log, ks)
  }

  lemma PushMatches(log: seq<Write>, h: map<Slot, seq<History>>, c: map<Slot, nat>, ks: map<Address, seq<nat>>,
                    w: Write)
    requires StorageMatches(log, h, c, ks) && InOrder(log, w.block, w.time)
    ensures StorageMatches(log + [w], PushHistory(h, w), c[(w.user, w.key) := w.value],
                           PushKey(ks, w, CurrentOf(c, (w.user, w.key)) != 0))
  {
    assert CurrentOf(c, (w.user, w.key)) == Current(log, w.user, w.key);
    PushHistoryMatches(log, h, w);
    PushCurrentMatches(log, c, w);
    PushKeyMatches(log, ks, w, CurrentOf(c, (w.user, w.key)) != 0);
  }

  // One entry of a batch.
  datatype SetValueParams = SetValueParams(key: nat, value: nat)

  ghost function Writes(user: Address, params: seq<SetValueParams>, block: Uint64, time: Uint48): seq<Write> {
    seq(|params|, i requires 0 <= i < |params| => Write(user, params[i].key, params[i].value, block, time))
  }

  // After a batch, a key reads the value it was last given in it, from that block on; a key not in it, or another
  // user's, reads what it did.
  lemma BatchIsRead(log: seq<Write>, user: Address, params: seq<SetValueParams>, block: Uint64, time: Uint48, n: nat)
    ensures block <= n ==>
              forall i :: 0 <= i < |params| && (forall j :: i < j < |params| ==> params[j].key != params[i].key) ==>
                ReplayAt(log + Writes(user, params, block, time), user, params[i].key, n)
                == Some(Write(user, params[i].key, params[i].value, block, time))
    ensures forall u: Address, k: nat :: u != user || (forall i :: 0 <= i < |params| ==> params[i].key != k) ==>
              ReplayAt(log + Writes(user, params, block, time), u, k, n) == ReplayAt(log, u, k, n)
  {
    var writes := Writes(user, params, block, time);
    forall i | 0 <= i < |params| && block <= n && (forall j :: i < j < |params| ==> params[j].key != params[i].key)
      ensures ReplayAt(log + writes, user, params[i].key, n)
           == Some(Write(user, params[i].key, params[i].value, block, time))
    {
      assert (log + writes)[|log| + i] == writes[i];
      assert forall j :: |log| + i < j < |log + writes| ==> (log + writes)[j] == writes[j - |log|];
      ReplayMeaning(log + writes, user, params[i].key, n, writes[i]);
    }
    forall u: Address, k: nat | u != user || (forall i :: 0 <= i < |params| ==> params[i].key != k)
      ensures ReplayAt(log + writes, u, k, n) == ReplayAt(log, u, k, n)
    {
      ReplayIgnores(log, writes, u, k, n);
    }
  }

  class StateManager {
    var currentValues: map<Slot, nat>
    var histories: map<Slot, seq<History>>
    var userKeys: map<Address, seq<nat>>
    ghost var log: seq<Write>

    // The stored arrays are the log, slot by slot.
    ghost predicate Valid()
      reads this
    {
      StorageMatches(log, histories, currentValues, userKeys)
    }

    constructor ()
      ensures Valid() && log == []
    {
      currentValues, histories, userKeys, log := map[], map[], map[], [];
    }

    method SetValue(user: Address, key: nat, value: nat, block: Uint64, time: Uint48)
      requires Valid() && InOrder(log, block, time)
      modifies this
      ensures Valid() && log == old(log) + [Write(user, key, value, block, time)]
    {
      var slot := (user, key);
      var known := CurrentOf(currentValues, slot) != 0;
      ghost var w := Write(user, key, value, block, time);
      PushMatches(log, histories, currentValues, userKeys, w);
      if !known {
        userKeys := userKeys[user := KeysOf(userKeys, user) + [key]];
      }
      currentValues := currentValues[slot := value];
      histories := histories[slot := HistoryOf(histories, slot) + [History(value, block, time)]];
      log := log + [w];
    }

    method BatchSetValues(user: Address, params: seq<SetValueParams>, block: Uint64, time: Uint48)
      returns (r: Result<(), StoreError>)
      requires Valid() && InOrder(log, block, time)
      modifies this
      ensures Valid()
      ensures |params| > 100 ==> r == Err(BatchTooLarge) && unchanged(this)
      ensures |params| <= 100 ==> r == Ok(()) && log == old(log) + Writes(user, params, block, time)
    {
      if |params| > MAX_BATCH_SIZE {
        return Err(BatchTooLarge);
      }
      ghost var all := Writes(user, params, block, time);
      for i := 0 to |params|
        invariant Valid() && InOrder(log, block, time)
        invariant log == old(log) + all[..i]
      {
        SetValue(user, params[i].key, params[i].value, block, time);
        assert all[..i + 1] == all[..i] + [all[i]];
      }
      assert all[..|params|] == all;
      return Ok(());
    }

    // Reads replay the log: the value current at the end of block n, with the two ways of having none told apart.
    method GetHistoryAtBlock(user: Address, key: nat, n: nat) returns (r: Result<History, StoreError>)
      requires Valid()
      ensures match ReplayAt(log, user, key, n)
              case Some(w) => r == Ok(History(w.value, w.block, w.time))
              case None =>
                r == Err(if exists w :: w in log && Hits(w, user, key) then BlockNotFound else NoHistoryFound)
    {
      ghost var entries := Entries(log, user, key);
      EntriesFromLog(log, user, key);
      EntriesSorted(log, user, key);
      ReplayIsLastEntry(log, user, key, n);
      assert HistoryOf(histories, (user, key)) == entries;
      if (user, key) !in histories || |histories[(user, key)]| == 0 {
        forall w | w in log && Hits(w, user, key) ensures History(w.value, w.block, w.time) in entries {
        }
        return Err(NoHistoryFound);
      }
      var keyHistory := histories[(user, key)];
      var index := BinarySearch(keyHistory, n, BlockNumber);
      assert forall j :: index < j < |keyHistory| ==> Position(keyHistory[j], BlockNumber) > n;
      LastAtIndex(keyHistory, n, index);
      assert entries[0] in entries;
      if index < |keyHistory| && keyHistory[index].block <= n {
        return Ok(keyHistory[index]);
      }
      return Err(BlockNotFound);
    }

    // Only an exact timestamp is found, and the last write at that timestamp answers.
    method GetHistoryAtTimestamp(user: Address, key: nat, time: nat) returns (r: Result<History, StoreError>)
      requires Valid()
      ensures var h := Entries(log, user, key);
              match r
              case Ok(e) => exists i :: 0 <= i < |h| && h[i] == e && e.time == time
                                        && forall j :: i < j < |h| ==> h[j].time > time
              case Err(error) => && (forall e :: e in h ==> e.time != time)
                                 && error == if h == [] then NoHistoryFound else TimestampNotFound
    {
      EntriesSorted(log, user, key);
      assert HistoryOf(histories, (user, key)) == Entries(log, user, key);
      if (user, key) !in histories || |histories[(user, key)]| == 0 {
        return Err(NoHistoryFound);
      }
      var keyHistory := histories[(user, key)];
      var index := BinarySearch(keyHistory, time, Timestamp);
      assert forall j :: index < j < |keyHistory| ==> Position(keyHistory[j], Timestamp) > time;
      assert forall j :: 0 <= j < index ==> keyHistory[j].time <= keyHistory[index].time;
      if index >= |keyHistory| || keyHistory[index].time != time {
        assert forall j :: 0 <= j < index ==> keyHistory[j].time <= keyHistory[index].time < time;
        return Err(TimestampNotFound);
      }
      return Ok(keyHistory[index]);
    }
  }
}
