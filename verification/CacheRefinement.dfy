// A session of the cache machine whose attempts are not interrupted does what the client's code does, whatever others
// do to Redis between the attempts.
module CacheRefinement {
  import opened Basics
  import opened CacheMachine
  import opened CacheClient

  // Others have changed Redis by the i-th attempt, and time has passed.
  function Meet(s: State, w: Surroundings, i: nat): State { s.(redis := w.attempt(i).entries, now := w.clock(i)) }

  // Actions of one session in a row.
  function Perform(s: State, id: nat, actions: seq<Action>): State
    decreases |actions|
  {
    if actions == [] then s else Perform(Next(s, Act(id, actions[0])), id, actions[1..])
  }

  lemma PerformOne(s: State, id: nat, a: Action, rest: seq<Action>)
    ensures Perform(s, id, [a] + rest) == Perform(Next(s, Act(id, a)), id, rest)
  {
    assert ([a] + rest)[1..] == rest;
  }

  lemma PerformTwo(s: State, id: nat, a: Action, b: Action)
    ensures Perform(s, id, [a, b]) == Next(Next(s, Act(id, a)), Act(id, b))
  {
    assert [a, b] == [a] + ([b] + []);
    PerformOne(s, id, a, [b] + []);
    PerformOne(Next(s, Act(id, a)), id, b, []);
  }

  // One attempt: read the store, set the lock. An action that does not fit does nothing.
  function AttemptOf(reply: Reply): seq<Action> { [Get(reply.Down?), TryLock(reply.LockFails?)] }

  // The machine when the i-th attempt begins: after each earlier one the session slept and woke.
  function Before(s: State, id: nat, w: Surroundings, i: nat): State {
    if i == 0 then Meet(s, w, 0)
    else Next(Meet(Perform(Before(s, id, w, i - 1), id, AttemptOf(w.attempt(i - 1))), w, i), Act(id, Wake))
  }

  // The session has waited i times, and nothing else has become of it.
  predicate Returned(s: State, first: State, id: nat, key: string, target: Bytes, w: Surroundings, i: nat) {
    && id in s.sessions
    && s.sessions[id] == Session(key, target, Reading, i, if i == 0 then None else Some(w.clock(0)))
    && s.redis == w.attempt(i).entries && s.now == w.clock(i)
    && s.maxWaiting == first.maxWaiting && s.source == first.source
  }

  // An attempt that finds the lock held puts the session into the select.
  lemma HeldAttempt(s: State, id: nat, reply: Reply)
    requires id in s.sessions && s.sessions[id].phase.Reading? && s.redis == reply.entries
    requires Held(reply, s.sessions[id].key)
    ensures var c := s.sessions[id];
            Perform(s, id, AttemptOf(reply))
            == s.(sessions := s.sessions[id := c.(phase := Waiting(s.now),
                                                  waitStart := if c.waitStart.None? then Some(s.now) else c.waitStart)])
  {
    var c := s.sessions[id];
    PerformTwo(s, id, Get(false), TryLock(false));
    assert Next(s, Act(id, Get(false))) == s.(sessions := s.sessions[id := c.(phase := Missed)]);
  }

  lemma {:induction false} WaitsRefine(s: State, id: nat, w: Surroundings, key: string, target: Bytes, i: nat)
    requires id in s.sessions && s.sessions[id] == Session(key, target, Reading, 0, None)
    requires Plausible(w, s.maxWaiting) && forall j :: 0 <= j < i ==> Waits(w, key, j)
    ensures Returned(Before(s, id, w, i), s, id, key, target, w, i)
  {
    if i > 0 {
      WaitsRefine(s, id, w, key, target, i - 1);
      assert Waits(w, key, i - 1);
      HeldAttempt(Before(s, id, w, i - 1), id, w.attempt(i - 1));
      assert w.clock(i - 1 + 1) >= w.clock(i - 1) + MIN_SLEEP;
    }
  }

  // The actions after the wait: the call of the source and what it is good for; or time passes and the session leaves.
  function FillOf(w: Surroundings): seq<Action> {
    [Fetch(w.fetched.Some?), if w.fetched.Some? then Put(w.setOk) else Unlock(w.unlockOk)]
  }

  function After(s: State, id: nat, w: Surroundings, i: nat): State {
    Next(Next(Perform(Perform(s, id, AttemptOf(w.attempt(i))), id, FillOf(w)), Elapse(MIN_SLEEP)), Act(id, GiveUp))
  }

  function PhaseOf(r: Outcome): Phase {
    match r
    case Value(data) => Answered(data)
    case _ => Gone
  }

  // An attempt that leads to the source, with the lock if it was free.
  lemma FetchingAttempt(s: State, id: nat, reply: Reply)
    requires id in s.sessions && s.sessions[id].phase.Reading? && s.redis == reply.entries
    requires var key := s.sessions[id].key;
             reply.Down? || (Store(key) !in reply.entries && (reply.LockFails? || Lock(key) !in reply.entries))
    ensures var c := s.sessions[id];
            Perform(s, id, AttemptOf(reply))
            == s.(redis := if reply.Contents? then s.redis[Lock(c.key) := []] else s.redis,
                  sessions := s.sessions[id := c.(phase := Fetching(reply.Contents?))])
  {
    var c := s.sessions[id];
    PerformTwo(s, id, Get(reply.Down?), TryLock(reply.LockFails?));
    var read := Next(s, Act(id, Get(reply.Down?)));
    assert read == s.(sessions := s.sessions[id := c.(phase := if reply.Down? then Fetching(false) else Missed)]);
  }

  lemma HitAttempt(s: State, id: nat, reply: Reply)
    requires id in s.sessions && s.sessions[id].phase.Reading? && s.redis == reply.entries
    requires !reply.Down? && Store(s.sessions[id].key) in reply.entries
    ensures var c := s.sessions[id];
            Perform(s, id, AttemptOf(reply))
            == s.(sessions := s.sessions[id := c.(phase := Answered(Unmarshal(s.redis[Store(c.key)], c.target)))])
  {
    PerformTwo(s, id, Get(false), TryLock(reply.LockFails?));
  }

  lemma FetchMove(s: State, id: nat, w: Surroundings)
    requires id in s.sessions && s.sessions[id].phase.Fetching?
    requires w.fetched.Some? ==> s.SourceOf(s.sessions[id].key) == w.fetched.value
    ensures var c := s.sessions[id];
            var phase := if w.fetched.Some? then Fetched(w.fetched.value, s.VersionOf(c.key)) else FetchFailed;
            Next(s, Act(id, FillOf(w)[0])) == s.(sessions := s.sessions[id := c.(phase := phase)])
  {
  }

  lemma FillRefines(s: State, id: nat, w: Surroundings)
    requires id in s.sessions && s.sessions[id].phase.Fetching?
    requires w.fetched.Some? ==> s.SourceOf(s.sessions[id].key) == w.fetched.value
    ensures var c, end := s.sessions[id], Perform(s, id, FillOf(w));
            && end.redis == Filled(s.redis, c.key, w)
            && end.sessions == s.sessions[id := c.(phase := PhaseOf(FetchOutcome(w, c.target)))]
  {
    var c := s.sessions[id];
    PerformTwo(s, id, FillOf(w)[0], FillOf(w)[1]);
    FetchMove(s, id, w);
    var phase := if w.fetched.Some? then Fetched(w.fetched.value, s.VersionOf(c.key)) else FetchFailed;
    var end := Next(s.(sessions := s.sessions[id := c.(phase := phase)]), Act(id, FillOf(w)[1]));
    assert end.sessions == s.sessions[id := c.(phase := PhaseOf(FetchOutcome(w, c.target)))];
  }

  // A session that does not call the source is left alone by those actions.
  lemma FillStays(s: State, id: nat, w: Surroundings)
    requires id in s.sessions
    requires s.sessions[id].phase.Answered? || s.sessions[id].phase.Waiting?
    ensures Perform(s, id, FillOf(w)) == s
  {
    PerformTwo(s, id, FillOf(w)[0], FillOf(w)[1]);
    assert s.sessions[id := s.sessions[id]] == s.sessions;
  }

  // A session that has its answer, or has left, stays as it is while time passes.
  lemma OverStays(s: State, id: nat)
    requires id in s.sessions && (s.sessions[id].phase.Answered? || s.sessions[id].phase.Gone?)
    ensures Next(Next(s, Elapse(MIN_SLEEP)), Act(id, GiveUp)) == s.(now := s.now + MIN_SLEEP)
  {
    assert s.sessions[id := s.sessions[id]] == s.sessions;
  }

  predicate EndsAs(s: State, id: nat, n: nat, r: Outcome, redis: map<Name, Bytes>) {
    && id in s.sessions && s.sessions[id].phase == PhaseOf(r) && s.sessions[id].retries == n && s.redis == redis
  }

  lemma AnsweredEnds(s: State, first: State, id: nat, w: Surroundings, key: string, target: Bytes, n: nat, r: Outcome,
                     redis: map<Name, Bytes>)
    requires Returned(s, first, id, key, target, w, n) && Ends(w, key, target, n, r, redis)
    requires !Held(w.attempt(n), key) && (w.fetched.Some? ==> s.SourceOf(key) == w.fetched.value)
    ensures EndsAs(After(s, id, w, n), id, n, r, redis)
  {
    var reply := w.attempt(n);
    var tried := Perform(s, id, AttemptOf(reply));
    if !reply.Down? && Store(key) in reply.entries {
      HitAttempt(s, id, reply);
      FillStays(tried, id, w);
    } else {
      FetchingAttempt(s, id, reply);
      FillRefines(tried, id, w);
    }
    OverStays(Perform(tried, id, FillOf(w)), id);
  }

  lemma TimeoutEnds(s: State, first: State, id: nat, w: Surroundings, key: string, target: Bytes, n: nat)
    requires Returned(s, first, id, key, target, w, n) && Plausible(w, s.maxWaiting)
    requires Held(w.attempt(n), key) && w.expired(n)
    ensures EndsAs(After(s, id, w, n), id, n, Timeout, w.attempt(n).entries)
  {
    HeldAttempt(s, id, w.attempt(n));
    var waiting := Perform(s, id, AttemptOf(w.attempt(n)));
    FillStays(waiting, id, w);
    assert w.clock(n) + MIN_SLEEP >= w.clock(0) + s.maxWaiting;
    assert MayGiveUp(Next(waiting, Elapse(MIN_SLEEP)), waiting.sessions[id]);
  }

  // However the client's call ends in the surroundings it meets, the machine's session ends in the same way: same
  // waits, same answer, same keyspace.
  lemma CallRefines(s: State, id: nat, w: Surroundings, key: string, target: Bytes, n: nat, r: Outcome,
                    redis: map<Name, Bytes>)
    requires id in s.sessions && s.sessions[id] == Session(key, target, Reading, 0, None)
    requires Plausible(w, s.maxWaiting) && (w.fetched.Some? ==> s.SourceOf(key) == w.fetched.value)
    requires (forall i :: 0 <= i < n ==> Waits(w, key, i)) && Ends(w, key, target, n, r, redis)
    ensures EndsAs(After(Before(s, id, w, n), id, w, n), id, n, r, redis)
  {
    WaitsRefine(s, id, w, key, target, n);
    if Held(w.attempt(n), key) {
      TimeoutEnds(Before(s, id, w, n), s, id, w, key, target, n);
    } else {
      AnsweredEnds(Before(s, id, w, n), s, id, w, key, target, n, r, redis);
    }
  }
}
