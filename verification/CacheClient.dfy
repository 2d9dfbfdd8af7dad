// The cache client's code, run by one caller while others change Redis between its attempts
// (internal/database/cache/cache.go).
module CacheClient {
  import opened Basics
  import opened CacheMachine

  // What an attempt meets: the keyspace as the others left it, and whether reading the store or setting the lock fails.
  datatype Reply =
    | Down(entries: map<Name, Bytes>)
    | LockFails(entries: map<Name, Bytes>)
    | Contents(entries: map<Name, Bytes>)

  datatype Outcome = Value(data: Bytes) | SourceError | Timeout

  // The outside of one call: Redis at each attempt, the time at which each select is entered and whether it ends
  // by the waiting time, the source's answer, and whether storing it or giving up the lock succeeds.
  datatype Surroundings = Surroundings(attempt: nat -> Reply, clock: nat -> nat, expired: nat -> bool,
                                       fetched: Option<Bytes>, setOk: bool, unlockOk: bool)

  // Sleeps last at least MIN_SLEEP; a select ends by the waiting time if that was up on entry, and only if it is
  // up by the end of the sleep.
  ghost predicate Plausible(w: Surroundings, maxWaiting: nat) {
    forall i :: 0 <= i ==>
      && w.clock(i + 1) >= w.clock(i) + MIN_SLEEP
      && (w.clock(i) >= w.clock(0) + maxWaiting ==> w.expired(i))
      && (w.expired(i) ==> w.clock(i) + MIN_SLEEP >= w.clock(0) + maxWaiting)
  }

  // Store empty, lock held by someone else.
  predicate Held(r: Reply, key: string) { r.Contents? && Store(key) !in r.entries && Lock(key) in r.entries }

  function FetchOutcome(w: Surroundings, target: Bytes): Outcome {
    match w.fetched
    case None => SourceError
    case Some(data) => Value(Unmarshal(data, target))
  }

  // The keyspace after a read of the source: the value stored, or the lock given up.
  function Filled(entries: map<Name, Bytes>, key: string, w: Surroundings): map<Name, Bytes> {
    match w.fetched
    case None => if w.unlockOk then entries - {Lock(key)} else entries
    case Some(data) => if w.setOk then entries[Store(key) := data] else entries
  }

  // How many of the keys are handled before the first deletion that fails.
  function Deleted(keys: seq<string>, ok: nat -> bool, from: nat): (n: nat)
    requires from <= |keys|
    ensures from <= n <= |keys|
    ensures forall i :: from <= i < n ==> ok(i)
    ensures n < |keys| ==> !ok(n)
    decreases |keys| - from
  {
    if from < |keys| && ok(from) then Deleted(keys, ok, from + 1) else from
  }

  // The caller comes back from the select for the i-th time.
  predicate Waits(w: Surroundings, key: string, i: nat) { Held(w.attempt(i), key) && !w.expired(i) }

  // How a call ends that waited n times: with the stored value; with the source's answer, filling the keyspace, because
  // Redis fails or the lock is free; or timed out with the lock still held.
  predicate Ends(w: Surroundings, key: string, target: Bytes, n: nat, r: Outcome, redis: map<Name, Bytes>) {
    var reply := w.attempt(n);
    var entries := reply.entries;
    if !reply.Down? && Store(key) in entries then r == Value(Unmarshal(entries[Store(key)], target)) && redis == entries
    else if !reply.Contents? then r == FetchOutcome(w, target) && redis == Filled(entries, key, w)
    else if Lock(key) !in entries then r == FetchOutcome(w, target) && redis == Filled(entries[Lock(key) := []], key, w)
    else w.expired(n) && r == Timeout && redis == entries
  }

  // The same outcome by outcome. A stored value, and one fetched, answers as it is unless it is empty, which leaves the
  // target; a fetch leaves the value stored, or on failure the lock given up, as far as those writes succeed.
  lemma EndsMeans(w: Surroundings, key: string, target: Bytes, n: nat, r: Outcome, redis: map<Name, Bytes>)
    ensures Ends(w, key, target, n, r, redis) <==>
              var reply := w.attempt(n);
              var entries := reply.entries;
              if !reply.Down? && Store(key) in entries then
                var data := entries[Store(key)];
                r == Value(if data == [] then target else data) && redis == entries
              else if reply.Contents? && Lock(key) in entries then w.expired(n) && r == Timeout && redis == entries
              else
                var locked := if reply.Contents? then entries[Lock(key) := []] else entries;
                match w.fetched
                case None => r == SourceError && redis == if w.unlockOk then locked - {Lock(key)} else locked
                case Some(data) =>
                  && r == Value(if data == [] then target else data)
                  && redis == if w.setOk then locked[Store(key) := data] else locked
  {
  }

  class Client {
    const maxWaiting: nat
    var redis: map<Name, Bytes>

    constructor (maxWaiting: nat)
      ensures this.maxWaiting == maxWaiting && redis == map[]
    {
      this.maxWaiting := maxWaiting;
      redis := map[];
    }

    method Set(key: string, data: Bytes)
      modifies this
      ensures redis == old(redis)[Store(key) := data]
    {
      redis := redis[Store(key) := data];
    }

    // Both entries of every key go, up to the first deletion that fails, which ends the call with an error; nothing
    // else goes.
    method Invalidate(keys: seq<string>, ok: nat -> bool) returns (done: bool)
      modifies this
      ensures var n := Deleted(keys, ok, 0);
              && done == (n == |keys|)
              && redis == map name | name in old(redis) && name.key !in keys[..n] :: old(redis)[name]
    {
      for i := 0 to |keys|
        invariant Deleted(keys, ok, i) == Deleted(keys, ok, 0)
        invariant redis == map name | name in old(redis) && name.key !in keys[..i] :: old(redis)[name]
      {
        if !ok(i) {
          return false;
        }
        redis := redis - {Lock(keys[i]), Store(keys[i])};
        assert keys[..i + 1] == keys[..i] + [keys[i]];
      }
      return true;
    }

    // Read the source; a failure gives the lock up, a value is stored under the key.
    method GetNoCache(key: string, target: Bytes, w: Surroundings) returns (r: Outcome)
      modifies this
      ensures r == FetchOutcome(w, target)
      ensures redis == Filled(old(redis), key, w)
      ensures match w.fetched
              case None => r == SourceError && redis == if w.unlockOk then old(redis) - {Lock(key)} else old(redis)
              case Some(data) =>
                && r == Value(if data == [] then target else data)
                && redis == if w.setOk then old(redis)[Store(key) := data] else old(redis)
    {
      match w.fetched {
        case None =>
          if w.unlockOk {
            redis := redis - {Lock(key)};
          }
          return SourceError;
        case Some(data) =>
          if w.setOk {
            redis := redis[Store(key) := data];
          }
          return Value(Unmarshal(data, target));
      }
    }

    // The caller waits exactly while others hold the lock and its time is not up, a bounded number of times; then the
    // call ends.
    method GetWithExpire(key: string, target: Bytes, w: Surroundings) returns (r: Outcome, retries: nat)
      requires Plausible(w, maxWaiting)
      modifies this
      ensures retries <= maxWaiting / MIN_SLEEP + 1
      ensures forall i :: 0 <= i < retries ==> Waits(w, key, i)
      ensures Ends(w, key, target, retries, r, redis)
      ensures r == Timeout ==> w.clock(retries) + MIN_SLEEP >= w.clock(0) + maxWaiting
    {
      retries := 0;
      while true
        invariant forall i :: 0 <= i < retries ==> Waits(w, key, i)
        invariant w.clock(retries) >= w.clock(0) + retries * MIN_SLEEP
        invariant retries > 0 ==> (retries - 1) * MIN_SLEEP < maxWaiting
        decreases maxWaiting / MIN_SLEEP + 1 - retries
      {
        var reply := w.attempt(retries);
        redis := reply.entries;
        if reply.Down? {
          r := GetNoCache(key, target, w);
          return;
        }
        if Store(key) in redis {
          r := Value(Unmarshal(redis[Store(key)], target));
          return;
        }
        if reply.LockFails? {
          r := GetNoCache(key, target, w);
          return;
        }
        if Lock(key) !in redis {
          redis := redis[Lock(key) := []];
          r := GetNoCache(key, target, w);
          return;
        }
        if w.expired(retries) {
          r := Timeout;
          return;
        }
        assert w.clock(retries + 1) >= w.clock(retries) + MIN_SLEEP;
        retries := retries + 1;
      }
    }
  }
}
