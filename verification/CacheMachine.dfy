// The read-through cache as concurrent clients over a Redis keyspace: every command is one step, entries expire at
// any time, the data source changes at any time (internal/database/cache/cache.go).
module CacheMachine {
  import opened Basics

  // ---------- key names ----------

  // The two Redis entries of a key, and how they are spelled.
  datatype Name = Store(key: string) | Lock(key: string)

  function Text(name: Name): string {
    match name
    case Store(key) => "#" + key + "#"
    case Lock(key) => "#" + key + "#_lock"
  }

  // Spelling is injective, so entries of different keys never collide, nor a key's store with any lock.
  lemma NamesNeverCollide(a: Name, b: Name)
    ensures Text(a) == Text(b) <==> a == b
  {
    var s, t := Text(a), Text(b);
    assert s[1..|s| - (if a.Store? then 1 else 6)] == a.key;
    assert t[1..|t| - (if b.Store? then 1 else 6)] == b.key;
    assert s[|s| - 1] == (if a.Store? then '#' else 'k');
    assert t[|t| - 1] == (if b.Store? then '#' else 'k');
  }

  // Empty data leaves the caller's target as it was.
  function Unmarshal(data: Bytes, target: Bytes): Bytes { if data == [] then target else data }

  // ---------- state ----------

  const MIN_SLEEP: nat := 50

  datatype Phase =
    | Reading                                  // about to GET the store
    | Missed                                   // about to SETNX the lock
    | Waiting(since: nat)                      // in the select, entered at since
    | Fetching(locked: bool)                   // about to call the source
    | FetchFailed                              // about to DEL the lock
    | Fetched(data: Bytes, version: nat)       // about to SET the store
    | Answered(result: Bytes)
    | Gone                                     // error or timeout

  datatype Session = Session(key: string, target: Bytes, phase: Phase, retries: nat, waitStart: Option<nat>)

  // Where a stored entry came from: a fetch of that version of the source (late if the source had changed by the
  // time it was stored), or an explicit Set of something else.
  datatype Origin = Fill(version: nat, late: bool) | Foreign

  datatype State = State(
    redis: map<Name, Bytes>,
    source: map<string, Bytes>,
    sessions: map<nat, Session>,
    now: nat,
    maxWaiting: nat,
    // history, per key: number of source changes, the count at the last invalidation, origin of the stored entry
    version: map<string, nat>,
    invalidated: map<string, nat>,
    origin: map<string, Origin>)
  {
    function SourceOf(key: string): Bytes { if key in source then source[key] else [] }

    function VersionOf(key: string): nat { if key in version then version[key] else 0 }

    function InvalidatedOf(key: string): nat { if key in invalidated then invalidated[key] else 0 }
  }

  // What a session does next; err and ok are the outcome of the command or call.
  datatype Action =
    | Get(err: bool)
    | TryLock(err: bool)
    | Wake
    | GiveUp
    | Fetch(ok: bool)
    | Unlock(ok: bool)
    | Put(ok: bool)

  datatype Step =
    | Open(id: nat, key: string, target: Bytes)
    | Act(id: nat, action: Action)
    | ExpireStore(key: string)
    | ExpireLock(key: string)
    | Invalidate(key: string)
    | Set(key: string, data: Bytes)
    | Change(key: string, data: Bytes)
    | Elapse(duration: nat)

  // The writes Redis receives.
  datatype Command =
    | Nothing
    | AcquireLock(key: string)
    | DeleteLock(key: string)
    | DeleteStore(key: string)
    | DeleteBoth(key: string)
    | WriteStore(key: string, data: Bytes, origin: Origin)

  function Execute(s: State, c: Command): State {
    match c
    case Nothing => s
    case AcquireLock(key) => s.(redis := s.redis[Lock(key) := []])
    case DeleteLock(key) => s.(redis := s.redis - {Lock(key)})
    case DeleteStore(key) => s.(redis := s.redis - {Store(key)})
    case DeleteBoth(key) =>
      s.(redis := s.redis - {Lock(key), Store(key)},
         invalidated := s.invalidated[key := s.VersionOf(key)])
    case WriteStore(key, data, origin) =>
      s.(redis := s.redis[Store(key) := data], origin := s.origin[key := origin])
  }

  // The select was entered before the waiting time was up.
  predicate MayWake(s: State, c: Session) {
    && c.phase.Waiting? && c.waitStart.Some?
    && s.now >= c.phase.since + MIN_SLEEP
    && c.phase.since < c.waitStart.value + s.maxWaiting
  }

  predicate MayGiveUp(s: State, c: Session) {
    c.phase.Waiting? && c.waitStart.Some? && s.now >= c.waitStart.value + s.maxWaiting
  }

  // An action that does not fit the session's phase leaves it as it is.
  function Advance(s: State, c: Session, a: Action): Session {
    match (c.phase, a)
    case (Reading, Get(err)) =>
      c.(phase := if err then Fetching(false)
                  else if Store(c.key) in s.redis then Answered(Unmarshal(s.redis[Store(c.key)], c.target))
                  else Missed)
    case (Missed, TryLock(err)) =>
      if err then c.(phase := Fetching(false))
      else if Lock(c.key) !in s.redis then c.(phase := Fetching(true))
      else c.(phase := Waiting(s.now), waitStart := if c.waitStart.None? then Some(s.now) else c.waitStart)
    case (Waiting(_), Wake) => if MayWake(s, c) then c.(phase := Reading, retries := c.retries + 1) else c
    case (Waiting(_), GiveUp) => if MayGiveUp(s, c) then c.(phase := Gone) else c
    case (Fetching(_), Fetch(ok)) =>
      c.(phase := if ok then Fetched(s.SourceOf(c.key), s.VersionOf(c.key)) else FetchFailed)
    case (FetchFailed, Unlock(_)) => c.(phase := Gone)
    case (Fetched(data, _), Put(_)) => c.(phase := Answered(Unmarshal(data, c.target)))
    case _ => c
  }

  function Issue(s: State, c: Session, a: Action): Command {
    match (c.phase, a)
    case (Missed, TryLock(err)) => if !err && Lock(c.key) !in s.redis then AcquireLock(c.key) else Nothing
    case (FetchFailed, Unlock(ok)) => if ok then DeleteLock(c.key) else Nothing
    case (Fetched(data, version), Put(ok)) =>
      if ok then WriteStore(c.key, data, Fill(version, version < s.VersionOf(c.key))) else Nothing
    case _ => Nothing
  }

  // A step that does not apply changes nothing.
  function Next(s: State, step: Step): State {
    match step
    case Open(id, key, target) =>
      if id in s.sessions then s else s.(sessions := s.sessions[id := Session(key, target, Reading, 0, None)])
    case Act(id, action) =>
      if id !in s.sessions then s
      else
        var c := s.sessions[id];
        Execute(s, Issue(s, c, action)).(sessions := s.sessions[id := Advance(s, c, action)])
    case ExpireStore(key) => Execute(s, DeleteStore(key))
    case ExpireLock(key) => Execute(s, DeleteLock(key))
    case Invalidate(key) => Execute(s, DeleteBoth(key))
    case Set(key, data) =>
      Execute(s, WriteStore(key, data, if data == s.SourceOf(key) then Fill(s.VersionOf(key), false) else Foreign))
    case Change(key, data) =>
      s.(source := s.source[key := data], version := s.version[key := s.VersionOf(key) + 1])
    case Elapse(duration) => s.(now := s.now + duration)
  }

  predicate Initial(s: State) {
    s.redis == map[] && s.sessions == map[] && s.version == map[] && s.invalidated == map[]
  }

  // A run: the states passed through and the steps between them.
  predicate Run(states: seq<State>, steps: seq<Step>) {
    && |states| == |steps| + 1 && Initial(states[0])
    && forall i {:trigger steps[i]} :: 0 <= i < |steps| ==> states[i + 1] == Next(states[i], steps[i])
  }

  // ---------- transparency ----------

  // An entry of the current version is the current value, and a timely entry is newer than the last invalidation.
  predicate EntryInv(s: State, key: string) {
    && s.InvalidatedOf(key) <= s.VersionOf(key)
    && (Store(key) in s.redis ==>
          && key in s.origin
          && (s.origin[key].Fill? ==>
                && s.origin[key].version <= s.VersionOf(key)
                && (s.origin[key].version == s.VersionOf(key) ==> s.redis[Store(key)] == s.SourceOf(key))
                && (s.origin[key].late ==> s.origin[key].version < s.VersionOf(key))
                && (!s.origin[key].late ==> s.origin[key].version >= s.InvalidatedOf(key))))
  }

  // A fetched value of the current version is the current value.
  predicate Truthful(s: State, c: Session) {
    c.phase.Fetched? ==>
      && c.phase.version <= s.VersionOf(c.key)
      && (c.phase.version == s.VersionOf(c.key) ==> c.phase.data == s.SourceOf(c.key))
  }

  predicate FetchInv(s: State, id: nat) { id in s.sessions ==> Truthful(s, s.sessions[id]) }

  // A fetched value is of the version at that moment; nothing else makes a session fetched.
  lemma AdvanceFetches(s: State, c: Session, a: Action)
    requires Truthful(s, c)
    ensures var d := Advance(s, c, a);
            d.key == c.key && Truthful(s, d) && (d.phase.Fetched? ==> d == c || d.phase.version == s.VersionOf(c.key))
  {
  }

  lemma ExecuteKeepsSource(s: State, c: Command)
    ensures var n := Execute(s, c);
            n.source == s.source && n.version == s.version && n.sessions == s.sessions
  {
  }

  lemma NextKeepsFetchInv(s: State, step: Step, id: nat)
    requires FetchInv(s, id)
    ensures FetchInv(Next(s, step), id)
  {
    if step.Act? && step.id in s.sessions {
      ExecuteKeepsSource(s, Issue(s, s.sessions[step.id], step.action));
      if step.id == id {
        AdvanceFetches(s, s.sessions[id], step.action);
      }
    }
  }

  // A store write that tells the truth about where its data comes from.
  predicate Honest(s: State, c: Command) {
    c.WriteStore? && c.origin.Fill? ==>
      && c.origin.version <= s.VersionOf(c.key)
      && (c.origin.version == s.VersionOf(c.key) ==> c.data == s.SourceOf(c.key))
      && c.origin.late == (c.origin.version < s.VersionOf(c.key))
  }

  lemma ExecuteKeepsEntryInv(s: State, c: Command, key: string)
    requires EntryInv(s, key) && Honest(s, c)
    ensures EntryInv(Execute(s, c), key)
  {
  }

  lemma NextKeepsEntryInv(s: State, step: Step, key: string)
    requires EntryInv(s, key) && (step.Act? ==> FetchInv(s, step.id))
    ensures EntryInv(Next(s, step), key)
  {
    match step
    case Act(id, action) =>
      if id in s.sessions {
        ExecuteKeepsEntryInv(s, Issue(s, s.sessions[id], action), key);
      }
    case ExpireStore(k) => ExecuteKeepsEntryInv(s, DeleteStore(k), key);
    case ExpireLock(k) => ExecuteKeepsEntryInv(s, DeleteLock(k), key);
    case Invalidate(k) => ExecuteKeepsEntryInv(s, DeleteBoth(k), key);
    case Set(k, data) =>
      var origin := if data == s.SourceOf(k) then Fill(s.VersionOf(k), false) else Foreign;
      ExecuteKeepsEntryInv(s, WriteStore(k, data, origin), key);
    case _ =>
  }

  lemma {:induction false} RunKeepsEntries(states: seq<State>, steps: seq<Step>, k: nat)
    requires Run(states, steps) && k <= |steps|
    ensures forall key :: EntryInv(states[k], key)
    ensures forall id :: FetchInv(states[k], id)
  {
    if k > 0 {
      RunKeepsEntries(states, steps, k - 1);
      forall key ensures EntryInv(states[k], key) { NextKeepsEntryInv(states[k - 1], steps[k - 1], key); }
      forall id ensures FetchInv(states[k], id) { NextKeepsFetchInv(states[k - 1], steps[k - 1], id); }
    }
  }

  // Every change of the source so far has been followed by an invalidation.
  predicate Invalidated(s: State, key: string) { s.InvalidatedOf(key) == s.VersionOf(key) }

  // Once every change is invalidated, a filled entry is of the current version exactly if it was stored in time,
  // and then a hit answers with the current source value.
  lemma HitIsCurrentIff(states: seq<State>, steps: seq<Step>, k: nat, key: string)
    requires Run(states, steps) && k <= |steps|
    requires var r := states[k];
             Invalidated(r, key) && Store(key) in r.redis && key in r.origin && r.origin[key].Fill?
    ensures var r := states[k];
            && (r.origin[key].version == r.VersionOf(key) <==> !r.origin[key].late)
            && (!r.origin[key].late ==> r.redis[Store(key)] == r.SourceOf(key))
  {
    RunKeepsEntries(states, steps, k);
    assert EntryInv(states[k], key);
  }

  // The discipline of the callers: the source of a key never changes while a fetched value of it is still to be
  // stored, and an explicit Set writes the source value.
  predicate Disciplined(s: State, step: Step, key: string) {
    && (step.Change? && step.key == key ==>
          forall id :: id in s.sessions && s.sessions[id].key == key ==> !s.sessions[id].phase.Fetched?)
    && (step.Set? && step.key == key ==> step.data == s.SourceOf(key))
  }

  predicate DisciplinedRun(states: seq<State>, steps: seq<Step>, key: string) {
    Run(states, steps) && forall i {:trigger steps[i]} :: 0 <= i < |steps| ==> Disciplined(states[i], steps[i], key)
  }

  predicate Timely(s: State, c: Session) { c.phase.Fetched? ==> c.phase.version == s.VersionOf(c.key) }

  predicate TimelySessions(s: State, key: string) {
    forall id :: id in s.sessions && s.sessions[id].key == key ==> Timely(s, s.sessions[id])
  }

  predicate TimelyEntry(s: State, key: string) {
    Store(key) in s.redis ==> key in s.origin && s.origin[key].Fill? && !s.origin[key].late
  }

  lemma NextKeepsTimelySession(s: State, step: Step, key: string, id: nat)
    requires id in s.sessions && s.sessions[id].key == key && Timely(s, s.sessions[id]) && Disciplined(s, step, key)
    ensures var n := Next(s, step);
            id in n.sessions && n.sessions[id].key == key && Timely(n, n.sessions[id])
  {
    if step.Act? && step.id in s.sessions {
      ExecuteKeepsSource(s, Issue(s, s.sessions[step.id], step.action));
      var d := Advance(s, s.sessions[step.id], step.action);
      assert step.id == id ==> d.key == key && Timely(s, d);
    }
  }

  lemma NextKeepsTimelySessions(s: State, step: Step, key: string)
    requires TimelySessions(s, key) && Disciplined(s, step, key)
    ensures TimelySessions(Next(s, step), key)
  {
    var n := Next(s, step);
    forall id | id in n.sessions && n.sessions[id].key == key ensures Timely(n, n.sessions[id]) {
      SessionsKeepKeys(s, step, id);
      if id in s.sessions {
        NextKeepsTimelySession(s, step, key, id);
      }
    }
  }

  lemma SessionsKeepKeys(s: State, step: Step, id: nat)
    requires id in Next(s, step).sessions
    ensures id in s.sessions ==> s.sessions[id].key == Next(s, step).sessions[id].key
    ensures id !in s.sessions ==> Next(s, step).sessions[id].phase.Reading?
  {
    if step.Act? && step.id in s.sessions {
      ExecuteKeepsSource(s, Issue(s, s.sessions[step.id], step.action));
    }
  }

  lemma IssueIsTimely(s: State, c: Session, a: Action)
    requires Timely(s, c)
    ensures var command := Issue(s, c, a);
            command.WriteStore? ==> command.key == c.key && command.origin == Fill(s.VersionOf(c.key), false)
  {
  }

  lemma NextKeepsTimelyEntry(s: State, step: Step, key: string)
    requires TimelySessions(s, key) && TimelyEntry(s, key) && Disciplined(s, step, key)
    ensures TimelyEntry(Next(s, step), key)
  {
    if step.Act? && step.id in s.sessions {
      var c := s.sessions[step.id];
      if c.key == key {
        IssueIsTimely(s, c, step.action);
      }
      ExecuteKeepsTimelyEntry(s, Issue(s, c, step.action), key);
    }
  }

  lemma ExecuteKeepsTimelyEntry(s: State, c: Command, key: string)
    requires TimelyEntry(s, key) && (c.WriteStore? && c.key == key ==> c.origin == Fill(s.VersionOf(key), false))
    ensures TimelyEntry(Execute(s, c), key)
  {
  }

  lemma {:induction false} DisciplinedRunIsTimely(states: seq<State>, steps: seq<Step>, k: nat, key: string)
    requires DisciplinedRun(states, steps, key) && k <= |steps|
    ensures TimelySessions(states[k], key) && TimelyEntry(states[k], key)
  {
    if k > 0 {
      DisciplinedRunIsTimely(states, steps, k - 1, key);
      NextKeepsTimelySessions(states[k - 1], steps[k - 1], key);
      NextKeepsTimelyEntry(states[k - 1], steps[k - 1], key);
    }
  }

  // Transparency: in every disciplined run, at every point where all changes are invalidated, whatever a session
  // is about to read or store for the key is the current source value.
  lemma Transparent(states: seq<State>, steps: seq<Step>, k: nat, key: string, id: nat)
    requires DisciplinedRun(states, steps, key) && k <= |steps| && Invalidated(states[k], key)
    requires id in states[k].sessions && states[k].sessions[id].key == key
    ensures var r := states[k];
            var c := r.sessions[id];
            var answer := if r.SourceOf(key) == [] then c.target else r.SourceOf(key);
            && (c.phase.Reading? && Store(key) in r.redis ==> Advance(r, c, Get(false)).phase == Answered(answer))
            && (c.phase.Fetched? ==> Advance(r, c, Put(true)).phase == Answered(answer))
  {
    DisciplinedRunIsTimely(states, steps, k, key);
    RunKeepsEntries(states, steps, k);
    assert EntryInv(states[k], key) && FetchInv(states[k], id);
  }

  function OneSession(s: State, phase: Phase): State { s.(sessions := map[0 := Session("k", [], phase, 0, None)]) }

  function Locked(s: State): State { s.(redis := map[Lock("k") := []]) }

  lemma MissSteps(s: State)
    requires Initial(s)
    ensures Next(s, Open(0, "k", [])) == OneSession(s, Reading)
    ensures Next(OneSession(s, Reading), Act(0, Get(false))) == OneSession(s, Missed)
  {
  }

  lemma FetchSteps(s: State, before: Bytes)
    requires Initial(s) && s.source == map["k" := before]
    ensures Next(OneSession(s, Missed), Act(0, TryLock(false))) == OneSession(Locked(s), Fetching(true))
    ensures Next(OneSession(Locked(s), Fetching(true)), Act(0, Fetch(true)))
         == OneSession(Locked(s), Fetched(before, 0))
  {
  }

  // A session fetches the value on which key's source stands.
  lemma FetchInFlight(s: State, before: Bytes) returns (states: seq<State>, steps: seq<Step>)
    requires Initial(s) && s.source == map["k" := before]
    ensures Run(states, steps) && states[0] == s && states[|steps|] == OneSession(Locked(s), Fetched(before, 0))
  {
    MissSteps(s);
    FetchSteps(s, before);
    steps := [Open(0, "k", []), Act(0, Get(false)), Act(0, TryLock(false)), Act(0, Fetch(true))];
    states := [s, OneSession(s, Reading), OneSession(s, Missed), OneSession(Locked(s), Fetching(true)),
               OneSession(Locked(s), Fetched(before, 0))];
  }

  lemma Extend(states: seq<State>, steps: seq<Step>, step: Step)
    requires Run(states, steps)
    ensures Run(states + [Next(states[|steps|], step)], steps + [step])
  {
    var more := steps + [step];
    forall i {:trigger more[i]} | 0 <= i < |more|
      ensures (states + [Next(states[|steps|], step)])[i + 1]
           == Next((states + [Next(states[|steps|], step)])[i], more[i])
    {
      assert i < |steps| ==> more[i] == steps[i];
    }
  }

  lemma ChangeAndInvalidate(s: State, after: Bytes)
    requires s.version == map[] && s.redis == map[Lock("k") := []]
    ensures var n := Next(Next(s, Change("k", after)), Invalidate("k"));
            && n.InvalidatedOf("k") == n.VersionOf("k") == 1 && n.SourceOf("k") == after
            && n.redis == map[] && n.sessions == s.sessions
  {
    var changed := Next(s, Change("k", after));
    assert changed.VersionOf("k") == 1 && changed.redis == s.redis;
  }

  lemma StoreLate(s: State, before: Bytes)
    requires s.redis == map[] && s.sessions == map[0 := Session("k", [], Fetched(before, 0), 0, None)]
    ensures var n := Next(s, Act(0, Put(true)));
            && n.redis == map[Store("k") := before] && n.sessions.Keys == {0}
            && n.version == s.version && n.source == s.source && n.invalidated == s.invalidated
  {
  }

  lemma ReadStored(s: State, data: Bytes)
    requires s.redis == map[Store("k") := data] && s.sessions.Keys == {0} && data != []
    ensures var n := Next(Next(s, Open(1, "k", [])), Act(1, Get(false)));
            && 1 in n.sessions && n.sessions[1].phase == Answered(data)
            && n.version == s.version && n.source == s.source && n.invalidated == s.invalidated
  {
  }

  // The discipline is needed: a fetch in flight across a change survives the invalidation of that change, and the
  // next reader gets the old value.
  lemma LateFillServesStale(s: State, before: Bytes, after: Bytes) returns (states: seq<State>, steps: seq<Step>)
    requires Initial(s) && s.source == map["k" := before] && before != after && before != []
    ensures Run(states, steps) && states[0] == s
    ensures var r := states[|steps|];
            && 1 in r.sessions && r.sessions[1].phase == Answered(before)
            && Invalidated(r, "k") && r.SourceOf("k") == after
  {
    states, steps := FetchInFlight(s, before);
    var s4 := states[|steps|];
    ChangeAndInvalidate(s4, after);
    states, steps := Append(states, steps, Change("k", after));
    states, steps := Append(states, steps, Invalidate("k"));
    StoreLate(states[|steps|], before);
    states, steps := Append(states, steps, Act(0, Put(true)));
    ReadStored(states[|steps|], before);
    states, steps := Append(states, steps, Open(1, "k", []));
    states, steps := Append(states, steps, Act(1, Get(false)));
  }

  lemma Append(states: seq<State>, steps: seq<Step>, step: Step) returns (longer: seq<State>, more: seq<Step>)
    requires Run(states, steps)
    ensures Run(longer, more) && longer[0] == states[0] && longer[|more|] == Next(states[|steps|], step)
  {
    longer, more := states + [Next(states[|steps|], step)], steps + [step];
    Extend(states, steps, step);
  }

  // ---------- single flight ----------

  // A session that got the lock and is about to call the source.
  predicate Granted(c: Session, key: string) { c.key == key && c.phase == Fetching(true) }

  function GrantedIds(sessions: map<nat, Session>, key: string): set<nat> {
    set id | id in sessions && Granted(sessions[id], key)
  }

  function Grantees(s: State, key: string): set<nat> { GrantedIds(s.sessions, key) }

  // The step is the call of the source by such a session.
  predicate LockedFetch(s: State, step: Step, key: string) {
    step.Act? && step.action.Fetch? && step.id in s.sessions && Granted(s.sessions[step.id], key)
  }

  predicate LockAppears(s: State, n: State, key: string) { Lock(key) !in s.redis && Lock(key) in n.redis }

  predicate LockVanishes(s: State, n: State, key: string) { Lock(key) in s.redis && Lock(key) !in n.redis }

  function One(b: bool): nat { if b then 1 else 0 }

  // Calls of the source under the lock of a key, and disappearances of the lock, among the first k steps.
  function Fetches(states: seq<State>, steps: seq<Step>, k: nat, key: string): nat
    requires k <= |steps| && |states| == |steps| + 1
  {
    if k == 0 then 0 else Fetches(states, steps, k - 1, key) + One(LockedFetch(states[k - 1], steps[k - 1], key))
  }

  function Vanishings(states: seq<State>, k: nat, key: string): nat
    requires k < |states|
  {
    if k == 0 then 0 else Vanishings(states, k - 1, key) + One(LockVanishes(states[k - 1], states[k], key))
  }

  lemma Without(ids: set<nat>, id: nat)
    ensures |ids| == |ids - {id}| + One(id in ids)
  {
    if id !in ids {
      assert ids - {id} == ids;
    }
  }

  lemma OthersGranted(sessions: map<nat, Session>, id: nat, c: Session, key: string)
    ensures GrantedIds(sessions[id := c], key) - {id} == GrantedIds(sessions, key) - {id}
  {
    var s, t := GrantedIds(sessions[id := c], key) - {id}, GrantedIds(sessions, key) - {id};
    forall k ensures k in s <==> k in t {
    }
  }

  // When one session changes, so does at most its own grant.
  lemma OneSessionChanges(sessions: map<nat, Session>, id: nat, c: Session, key: string)
    ensures |GrantedIds(sessions[id := c], key)| + One(id in sessions && Granted(sessions[id], key))
         == |GrantedIds(sessions, key)| + One(Granted(c, key))
  {
    OthersGranted(sessions, id, c, key);
    Without(GrantedIds(sessions[id := c], key), id);
    Without(GrantedIds(sessions, key), id);
  }

  // A grant is given with the lock and used up by the fetch.
  lemma AdvanceGrants(s: State, c: Session, a: Action, key: string)
    ensures One(Granted(Advance(s, c, a), key)) + One(a.Fetch? && Granted(c, key))
         == One(Granted(c, key)) + One(LockAppears(s, Execute(s, Issue(s, c, a)), key))
  {
  }

  lemma ActGrants(s: State, id: nat, a: Action, key: string)
    requires id in s.sessions
    ensures var n := Next(s, Act(id, a));
            |Grantees(n, key)| + One(LockedFetch(s, Act(id, a), key))
            == |Grantees(s, key)| + One(LockAppears(s, n, key))
  {
    var c := s.sessions[id];
    AdvanceGrants(s, c, a, key);
    OneSessionChanges(s.sessions, id, Advance(s, c, a), key);
  }

  lemma NextGrants(s: State, step: Step, key: string)
    ensures |Grantees(Next(s, step), key)| + One(LockedFetch(s, step, key))
         == |Grantees(s, key)| + One(LockAppears(s, Next(s, step), key))
  {
    match step
    case Act(id, a) => if id in s.sessions { ActGrants(s, id, a, key); }
    case Open(id, k, target) => OneSessionChanges(s.sessions, id, Session(k, target, Reading, 0, None), key);
    case _ =>
  }

  // Over every interleaving, the source has been called under the lock of a key, or is about to be, once for every
  // time the lock vanished and once more while it is present.
  lemma {:induction false} SingleFlight(states: seq<State>, steps: seq<Step>, k: nat, key: string)
    requires Run(states, steps) && k <= |steps|
    ensures Fetches(states, steps, k, key) + |Grantees(states[k], key)|
         == Vanishings(states, k, key) + One(Lock(key) in states[k].redis)
  {
    if k > 0 {
      SingleFlight(states, steps, k - 1, key);
      NextGrants(states[k - 1], steps[k - 1], key);
      assert states[k] == Next(states[k - 1], steps[k - 1]);
    }
  }

  // So between two moments there is at most one call more than grants pending at the first and disappearances since.
  lemma SingleFlightBetween(states: seq<State>, steps: seq<Step>, j: nat, k: nat, key: string)
    requires Run(states, steps) && j <= k <= |steps|
    ensures Fetches(states, steps, k, key) - Fetches(states, steps, j, key)
         <= |Grantees(states[j], key)| + Vanishings(states, k, key) - Vanishings(states, j, key) + 1
    ensures Lock(key) in states[j].redis && Vanishings(states, k, key) == Vanishings(states, j, key) ==>
              Fetches(states, steps, k, key) - Fetches(states, steps, j, key) <= |Grantees(states[j], key)|
  {
    SingleFlight(states, steps, j, key);
    SingleFlight(states, steps, k, key);
  }

  // ---------- waiting ends ----------

  predicate Patient(now: nat, maxWaiting: nat, c: Session) {
    && (c.retries > 0 ==> c.waitStart.Some?)
    && (c.phase.Waiting? ==> c.waitStart.Some? && c.phase.since <= now
                             && c.phase.since >= c.waitStart.value + c.retries * MIN_SLEEP)
    && (c.waitStart.Some? ==> now >= c.waitStart.value + c.retries * MIN_SLEEP)
    && (c.retries > 0 ==> (c.retries - 1) * MIN_SLEEP < maxWaiting)
  }

  predicate WaitInv(s: State, id: nat) {
    id in s.sessions ==> Patient(s.now, s.maxWaiting, s.sessions[id])
  }

  lemma AdvanceKeepsPatient(s: State, c: Session, a: Action)
    requires Patient(s.now, s.maxWaiting, c)
    ensures Patient(s.now, s.maxWaiting, Advance(s, c, a))
  {
  }

  lemma ExecuteKeepsClock(s: State, c: Command)
    ensures Execute(s, c).now == s.now && Execute(s, c).maxWaiting == s.maxWaiting
  {
  }

  lemma NextKeepsWaitInv(s: State, step: Step, id: nat)
    requires WaitInv(s, id)
    ensures WaitInv(Next(s, step), id)
    ensures Next(s, step).maxWaiting == s.maxWaiting
  {
    if step.Act? && step.id in s.sessions {
      ExecuteKeepsClock(s, Issue(s, s.sessions[step.id], step.action));
      ExecuteKeepsSource(s, Issue(s, s.sessions[step.id], step.action));
      if step.id == id {
        AdvanceKeepsPatient(s, s.sessions[id], step.action);
      }
    }
  }

  lemma {:induction false} RunKeepsWaits(states: seq<State>, steps: seq<Step>, k: nat, id: nat)
    requires Run(states, steps) && k <= |steps|
    ensures WaitInv(states[k], id) && states[k].maxWaiting == states[0].maxWaiting
  {
    if k > 0 {
      RunKeepsWaits(states, steps, k - 1, id);
      NextKeepsWaitInv(states[k - 1], steps[k - 1], id);
      assert states[k] == Next(states[k - 1], steps[k - 1]);
    }
  }

  // Whatever the others do, a waiter retries at most maxWaiting / MIN_SLEEP + 1 times, and after each sleep it can
  // move on: it wakes, or its time is up and it leaves.
  lemma WaitersLeave(states: seq<State>, steps: seq<Step>, k: nat, id: nat)
    requires Run(states, steps) && k <= |steps| && id in states[k].sessions
    ensures var r := states[k];
            var c := r.sessions[id];
            && c.retries <= states[0].maxWaiting / 50 + 1
            && (c.phase.Waiting? && r.now >= c.phase.since + 50 ==>
                  Advance(r, c, Wake).phase == Reading || Advance(r, c, GiveUp).phase == Gone)
  {
    RunKeepsWaits(states, steps, k, id);
    assert WaitInv(states[k], id);
  }
}
