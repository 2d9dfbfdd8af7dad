// The operators table as a schedule: registration events and periodic refreshes keep its is_active column, a cache
// of an interval predicate (pkg/operator/event/listener.go, pkg/operator/epoch/updator.go,
// pkg/repos/operators/query.sql.go).
module OperatorSchedule {
  import opened Basics
  import opened EpochMath

  datatype Operator = Operator(signingKey: string, p2pKey: string, registeredAt: Uint64, active: Uint32, exit: Uint32,
                               isActive: bool, weight: int)

  type Table = map<string, Operator>

  datatype Event =
    | Registered(operator: string, signingKey: string, p2pKey: string, block: Uint64)
    | Deregistered(operator: string, block: Uint64)

  // What the chain reports for one operator at a refresh.
  datatype Reading = Reading(weight: nat, signingKey: string, p2pKey: string)

  // ---------- the statements ----------

  // Registration overwrites the whole row: inactive, without weight, without exit.
  function HandleRegistered(t: Table, operator: string, signingKey: string, p2pKey: string, block: Uint64): Table {
    t[operator := Operator(signingKey, p2pKey, block, GetEffectiveEpochByBlockNumber(block), NO_EXIT, false, 0)]
  }

  // Deregistration of an unknown operator dereferences a missing row: None.
  function HandleDeregistered(t: Table, operator: string, block: Uint64): Option<Table> {
    if operator !in t then None
    else Some(t[operator := t[operator].(exit := GetEffectiveEpochByBlockNumber(block))])
  }

  // A refresh computes activity from the listed rows and writes it, with fresh weight and keys, to the current rows.
  function Refreshed(row: Operator, listed: Operator, block: Uint64, r: Reading): Operator {
    row.(isActive := IsOperatorActive(block, listed.active, listed.exit),
         weight := r.weight, signingKey := r.signingKey, p2pKey := r.p2pKey)
  }

  function RefreshAll(t: Table, listed: Table, block: Uint64, readings: map<string, Reading>): Table
    requires listed.Keys <= t.Keys && listed.Keys <= readings.Keys
  {
    map a | a in t :: if a in listed then Refreshed(t[a], listed[a], block, readings[a]) else t[a]
  }

  // ---------- the machine ----------

  // A refresh transaction between listing the rows and committing.
  datatype Refresh = Idle | Listed(epoch: Uint32, block: Uint64, rows: Table)

  // refreshed and boundary: whether a refresh has committed, and the epoch of its block;
  // stale: operators whose activity the last commit computed from rows that no longer told their service.
  datatype State = State(table: Table, lastProcessed: Uint32, epochNumber: Uint32, refresh: Refresh,
                         refreshed: bool, boundary: Uint32, stale: set<string>)

  datatype Step =
    | Handle(event: Event)
    // A tick reads the head twice; the in-memory epoch moves first, then listing succeeds or not.
    | Begin(first: Uint64, second: Uint64, listOk: bool)
    | Commit(readings: map<string, Reading>)
    | Abort

  predicate Serves(t: Table, operator: string, epoch: Uint32) {
    operator in t && InService(epoch, t[operator].active, t[operator].exit)
  }

  // Operators whose service at the refreshed epoch differs between the listed rows and the current ones.
  function StaleAfter(t: Table, listed: Table, epoch: Uint32): set<string> {
    set a | a in t && Serves(listed, a, epoch) != Serves(t, a, epoch)
  }

  function Next(s: State, step: Step): State {
    match step
    case Handle(Registered(a, signingKey, p2pKey, block)) =>
      s.(table := HandleRegistered(s.table, a, signingKey, p2pKey, block), stale := s.stale - {a})
    case Handle(Deregistered(a, block)) =>
      (match HandleDeregistered(s.table, a, block) case None => s case Some(t) => s.(table := t))
    case Begin(first, second, listOk) =>
      var epoch := CalculateCurrentEpochNumber(first);
      if s.refresh.Listed? || epoch <= s.lastProcessed then s
      else if listOk then s.(epochNumber := epoch, refresh := Listed(epoch, second, s.table))
      else s.(epochNumber := epoch)
    case Commit(readings) =>
      (match s.refresh
       case Listed(epoch, block, rows) =>
         if rows.Keys <= s.table.Keys && rows.Keys <= readings.Keys then
           var reached := CalculateCurrentEpochNumber(block);
           s.(table := RefreshAll(s.table, rows, block, readings), lastProcessed := epoch, refresh := Idle,
              refreshed := true, boundary := reached, stale := StaleAfter(s.table, rows, reached))
         else s
       case Idle => s)
    case Abort => s.(refresh := Idle)
  }

  // Events of one operator alternate and arrive in block order. Heads stay clear of the uint32 limit.
  predicate Delivered(s: State, step: Step) {
    match step
    case Handle(e) =>
      && Scheduled(e.block)
      && (if e.operator in s.table && s.table[e.operator].exit == NO_EXIT
          then e.Deregistered? && s.table[e.operator].registeredAt <= e.block
          else e.Registered?)
    case Begin(first, second, _) => Scheduled(first) && Scheduled(second)
    case Commit(_) => true
    case Abort => true
  }

  predicate RowInOrder(row: Operator) {
    && Scheduled(row.registeredAt)
    && row.active == GetEffectiveEpochByBlockNumber(row.registeredAt)
    && InOrderRow(row.active, row.exit)
  }

  // Any in-order table, nothing refreshed yet.
  predicate Initial(s: State) {
    && (forall a :: a in s.table ==> RowInOrder(s.table[a]))
    && s.lastProcessed == 0 && s.epochNumber == 0 && s.boundary == 0
    && s.refresh == Idle && !s.refreshed && s.stale == {}
  }

  // A run: the states passed through and the steps between them.
  predicate Run(states: seq<State>, steps: seq<Step>) {
    && |states| == |steps| + 1 && Initial(states[0])
    && forall i {:trigger steps[i]} :: 0 <= i < |steps| ==>
         Delivered(states[i], steps[i]) && states[i + 1] == Next(states[i], steps[i])
  }

  // An event takes effect only after the last refreshed epoch, so it is at most a grace period late for it.
  predicate Timely(s: State, step: Step) {
    step.Handle? ==> GetEffectiveEpochByBlockNumber(step.event.block) > s.boundary
  }

  predicate TimelyRun(states: seq<State>, steps: seq<Step>) {
    Run(states, steps) && forall i {:trigger steps[i]} :: 0 <= i < |steps| ==> Timely(states[i], steps[i])
  }

  // ---------- invariants ----------

  predicate Exact(row: Operator, epoch: Uint32) { row.isActive == InService(epoch, row.active, row.exit) }

  // Rows are in order, and those an open refresh did not list are not active.
  predicate TableInv(s: State) {
    && (forall a :: a in s.table ==> RowInOrder(s.table[a]))
    && (s.refresh.Listed? ==>
          && Scheduled(s.refresh.block) && s.refresh.rows.Keys <= s.table.Keys
          && (forall a :: a in s.refresh.rows ==> RowInOrder(s.refresh.rows[a]))
          && (forall a :: a in s.table && a !in s.refresh.rows ==> !s.table[a].isActive))
  }

  predicate EpochInv(s: State) {
    && s.lastProcessed <= s.epochNumber
    && (s.refresh.Listed? ==> s.lastProcessed < s.refresh.epoch == s.epochNumber)
  }

  predicate Inv(s: State) { TableInv(s) && EpochInv(s) }

  predicate CacheInv(s: State) {
    s.refreshed ==> forall a :: a in s.table ==> (Exact(s.table[a], s.boundary) <==> a !in s.stale)
  }

  // An event of a served epoch starts or ends service strictly later.
  lemma EventEpoch(block: Uint64)
    requires Scheduled(block)
    ensures CalculateCurrentEpochNumber(block) < GetEffectiveEpochByBlockNumber(block) < NO_EXIT
  {
    EffectiveEpochBounds(block);
  }

  lemma HandleKeepsInv(s: State, e: Event)
    requires Inv(s) && Delivered(s, Handle(e))
    ensures Inv(Next(s, Handle(e)))
  {
    EventEpoch(e.block);
    if e.Deregistered? {
      EffectiveEpochMonotone(s.table[e.operator].registeredAt, e.block);
    }
  }

  lemma NextKeepsInv(s: State, step: Step)
    requires Inv(s) && Delivered(s, step)
    ensures Inv(Next(s, step))
  {
    if step.Handle? {
      HandleKeepsInv(s, step.event);
    }
  }

  lemma {:induction false} RunKeepsInv(states: seq<State>, steps: seq<Step>, k: nat)
    requires Run(states, steps) && k <= |steps|
    ensures Inv(states[k])
  {
    if k > 0 {
      RunKeepsInv(states, steps, k - 1);
      NextKeepsInv(states[k - 1], steps[k - 1]);
    }
  }

  // What one event does to the cache: the operator's row reads right exactly if the event takes effect after the
  // refreshed epoch.
  lemma EventKeepsExactIff(s: State, e: Event)
    requires Inv(s) && Delivered(s, Handle(e))
    requires e.operator in s.table ==> Exact(s.table[e.operator], s.boundary)
    ensures var t := Next(s, Handle(e)).table;
            && e.operator in t
            && (Exact(t[e.operator], s.boundary) <==> Timely(s, Handle(e)))
  {
    EventEpoch(e.block);
    if e.Deregistered? {
      EffectiveEpochMonotone(s.table[e.operator].registeredAt, e.block);
    }
  }

  lemma HandleKeepsCache(s: State, e: Event)
    requires Inv(s) && CacheInv(s) && Delivered(s, Handle(e)) && Timely(s, Handle(e))
    ensures CacheInv(Next(s, Handle(e)))
  {
    EventEpoch(e.block);
    if e.Deregistered? {
      EffectiveEpochMonotone(s.table[e.operator].registeredAt, e.block);
    }
  }

  lemma CommitKeepsCache(s: State, readings: map<string, Reading>)
    requires Inv(s) && CacheInv(s)
    ensures CacheInv(Next(s, Commit(readings)))
  {
    var n := Next(s, Commit(readings));
    if n != s {
      var rows, block := s.refresh.rows, s.refresh.block;
      forall a | a in n.table ensures Exact(n.table[a], n.boundary) <==> a !in n.stale {
        if a in rows {
          EventEpoch(rows[a].registeredAt);
          IsOperatorActiveInOrder(block, rows[a].active, rows[a].exit);
        }
      }
    }
  }

  lemma {:induction false} RunKeepsCache(states: seq<State>, steps: seq<Step>, k: nat)
    requires TimelyRun(states, steps) && k <= |steps|
    ensures CacheInv(states[k])
  {
    if k > 0 {
      RunKeepsCache(states, steps, k - 1);
      RunKeepsInv(states, steps, k - 1);
      match steps[k - 1]
      case Handle(e) => HandleKeepsCache(states[k - 1], e);
      case Commit(readings) => CommitKeepsCache(states[k - 1], readings);
      case _ =>
    }
  }

  // ---------- main results ----------

  // Once refreshed, the cached activity of a row is right at every block of the refreshed epoch, except, exactly,
  // on the rows whose service at that epoch was changed by events between listing and commit.
  lemma CachedActivityExact(states: seq<State>, steps: seq<Step>, k: nat, operator: string, block: Uint64)
    requires TimelyRun(states, steps) && k <= |steps|
    requires && states[k].refreshed && operator in states[k].table
             && Scheduled(block) && CalculateCurrentEpochNumber(block) == states[k].boundary
    ensures var row := states[k].table[operator];
            row.isActive == IsOperatorActive(block, row.active, row.exit) <==> operator !in states[k].stale
  {
    RunKeepsInv(states, steps, k);
    RunKeepsCache(states, steps, k);
    var row := states[k].table[operator];
    EventEpoch(row.registeredAt);
    IsOperatorActiveInOrder(block, row.active, row.exit);
  }

  // An event during a refresh that leaves every service at the refreshed epoch as it was listed.
  predicate Harmless(refresh: Refresh, e: Event)
    requires refresh.Listed?
  {
    var reached := CalculateCurrentEpochNumber(refresh.block);
    GetEffectiveEpochByBlockNumber(e.block) > reached && (e.Registered? ==> !Serves(refresh.rows, e.operator, reached))
  }

  predicate Undisturbed(states: seq<State>, steps: seq<Step>)
    requires |states| == |steps| + 1
  {
    forall i {:trigger steps[i]} :: 0 <= i < |steps| && steps[i].Handle? && states[i].refresh.Listed? ==>
      Harmless(states[i].refresh, steps[i].event)
  }

  predicate NothingStale(s: State) {
    s.stale == {}
    && (s.refresh.Listed? ==> StaleAfter(s.table, s.refresh.rows, CalculateCurrentEpochNumber(s.refresh.block)) == {})
  }

  lemma HandleKeepsFresh(s: State, e: Event)
    requires Inv(s) && NothingStale(s) && Delivered(s, Handle(e)) && (s.refresh.Listed? ==> Harmless(s.refresh, e))
    ensures NothingStale(Next(s, Handle(e)))
  {
    var n := Next(s, Handle(e));
    EventEpoch(e.block);
    if s.refresh.Listed? {
      var rows, reached := s.refresh.rows, CalculateCurrentEpochNumber(s.refresh.block);
      forall a | a in n.table ensures Serves(rows, a, reached) == Serves(n.table, a, reached) {
        assert a in s.table ==> a !in StaleAfter(s.table, rows, reached);
      }
    }
  }

  lemma {:induction false} UndisturbedNeverStale(states: seq<State>, steps: seq<Step>, k: nat)
    requires Run(states, steps) && Undisturbed(states, steps) && k <= |steps|
    ensures NothingStale(states[k])
  {
    if k > 0 {
      UndisturbedNeverStale(states, steps, k - 1);
      RunKeepsInv(states, steps, k - 1);
      if steps[k - 1].Handle? {
        HandleKeepsFresh(states[k - 1], steps[k - 1].event);
      }
    }
  }

  // When the events handled during refreshes are harmless, the cache is exact on every row.
  lemma CachedActivityExactUndisturbed(states: seq<State>, steps: seq<Step>, k: nat, operator: string, block: Uint64)
    requires TimelyRun(states, steps) && Undisturbed(states, steps) && k <= |steps|
    requires && states[k].refreshed && operator in states[k].table
             && Scheduled(block) && CalculateCurrentEpochNumber(block) == states[k].boundary
    ensures var row := states[k].table[operator];
            row.isActive == IsOperatorActive(block, row.active, row.exit)
  {
    UndisturbedNeverStale(states, steps, k);
    CachedActivityExact(states, steps, k, operator, block);
  }

  // Rows never reach the branch of IsOperatorActive for operators that left before they joined, so activity is
  // plain membership in the service interval, at any block, however late events arrive.
  lemma RowsStayInOrder(states: seq<State>, steps: seq<Step>, k: nat, operator: string, block: Uint64)
    requires Run(states, steps) && k <= |steps| && operator in states[k].table && Scheduled(block)
    ensures var row := states[k].table[operator];
            && (row.exit == NO_EXIT || row.exit >= row.active)
            && (IsOperatorActive(block, row.active, row.exit) <==>
                InService(CalculateCurrentEpochNumber(block), row.active, row.exit))
  {
    RunKeepsInv(states, steps, k);
    var row := states[k].table[operator];
    EventEpoch(row.registeredAt);
    IsOperatorActiveInOrder(block, row.active, row.exit);
  }

  // The in-memory epoch is never behind the last processed one, through failing ticks and reorganised heads;
  // what each step does to both, and to the table, is fixed.
  lemma EpochsOverRuns(states: seq<State>, steps: seq<Step>, k: nat)
    requires Run(states, steps) && k < |steps|
    ensures var r, step, n := states[k], steps[k], states[k + 1];
            && r.lastProcessed <= r.epochNumber && n.lastProcessed <= n.epochNumber
            && r.lastProcessed <= n.lastProcessed
            && (n.lastProcessed != r.lastProcessed ==> step.Commit? && n.lastProcessed == n.epochNumber)
            && (step.Begin? || step.Abort? ==> n.table == r.table && n.lastProcessed == r.lastProcessed)
            && (step.Begin? && n != r ==>
                  && n.epochNumber == CalculateCurrentEpochNumber(step.first) > r.lastProcessed
                  && n.refresh == if step.listOk then Listed(n.epochNumber, step.second, r.table) else r.refresh)
            && (step.Handle? && step.event.Registered? ==>
                  n.table == r.table[step.event.operator :=
                    Operator(step.event.signingKey, step.event.p2pKey, step.event.block,
                             GetEffectiveEpochByBlockNumber(step.event.block), 0xFFFF_FFFF, false, 0)])
            && (step.Handle? && step.event.Deregistered? && step.event.operator in r.table ==>
                  n.table == r.table[step.event.operator := r.table[step.event.operator].(
                    exit := GetEffectiveEpochByBlockNumber(step.event.block))])
            && (step.Commit? && n != r ==> forall a :: a in r.refresh.rows ==>
                  && a in n.table
                  && n.table[a].isActive
                     == IsOperatorActive(r.refresh.block, r.refresh.rows[a].active, r.refresh.rows[a].exit)
                  && n.table[a].weight == step.readings[a].weight
                  && n.table[a].signingKey == step.readings[a].signingKey
                  && n.table[a].p2pKey == step.readings[a].p2pKey
                  && n.table[a].active == r.table[a].active && n.table[a].exit == r.table[a].exit)
  {
    RunKeepsInv(states, steps, k);
    RunKeepsInv(states, steps, k + 1);
    assert EpochInv(states[k]) && states[k + 1] == Next(states[k], steps[k]);
  }

  // A tick whose head reads fall in different epochs records the first and computes activity for the second: at the
  // blocks of the recorded epoch a row is right exactly if its service agrees in both.
  lemma SplitReads(states: seq<State>, steps: seq<Step>, k: nat, operator: string, block: Uint64)
    requires Run(states, steps) && k + 1 < |steps| && steps[k].Begin? && steps[k].listOk && steps[k + 1].Commit?
    requires var epoch := CalculateCurrentEpochNumber(steps[k].first);
             && states[k].refresh.Idle? && epoch > states[k].lastProcessed
             && states[k].table.Keys <= steps[k + 1].readings.Keys && operator in states[k].table
             && Scheduled(block) && CalculateCurrentEpochNumber(block) == epoch
    ensures var r, epoch := states[k + 2], CalculateCurrentEpochNumber(steps[k].first);
            && r.lastProcessed == epoch && operator in r.table
            && var row := r.table[operator];
               row.isActive == IsOperatorActive(block, row.active, row.exit) <==>
               InService(epoch, row.active, row.exit)
               == InService(CalculateCurrentEpochNumber(steps[k].second), row.active, row.exit)
  {
    RunKeepsInv(states, steps, k);
    var row := states[k].table[operator];
    assert states[k + 1] == Next(states[k], steps[k]) && states[k + 2] == Next(states[k + 1], steps[k + 1]);
    EventEpoch(row.registeredAt);
    IsOperatorActiveInOrder(block, row.active, row.exit);
    IsOperatorActiveInOrder(steps[k].second, row.active, row.exit);
  }

  // ---------- runs on which the cache is wrong ----------

  // A row as registered at a block: active an epoch or two later, no exit.
  function Joined(block: Uint64, active: Uint32): Operator { Operator("k", "p", block, active, NO_EXIT, false, 0) }

  function Marked(block: Uint64, active: Uint32, isActive: bool, r: Reading): Operator {
    Operator(r.signingKey, r.p2pKey, block, active, NO_EXIT, isActive, r.weight)
  }

  // Registration during a refresh: a serving operator is listed, leaves and returns, and the refresh commits.
  function ReturnSteps(r: Reading): seq<Step> {
    var g: Uint64 := GENESIS_BLOCK;
    [Begin(g + 12, g + 12, true), Handle(Deregistered("op", g + 12)), Handle(Registered("op", "k", "p", g + 13)),
     Commit(map["op" := r])]
  }

  function ReturnStates(r: Reading): seq<State> {
    var g: Uint64 := GENESIS_BLOCK;
    var before := map["op" := Joined(g, 1)];
    var open := Listed(1, g + 12, before);
    [State(before, 0, 0, Idle, false, 0, {}),
     State(before, 0, 1, open, false, 0, {}),
     State(map["op" := Joined(g, 1).(exit := 2)], 0, 1, open, false, 0, {}),
     State(map["op" := Joined(g + 13, 2)], 0, 1, open, false, 0, {}),
     State(map["op" := Marked(g + 13, 2, true, r)], 1, 1, Idle, true, 1, {"op"})]
  }

  lemma ReturnEvents(r: Reading)
    ensures var states, steps := ReturnStates(r), ReturnSteps(r);
            && Delivered(states[1], steps[1]) && Timely(states[1], steps[1]) && states[2] == Next(states[1], steps[1])
            && Delivered(states[2], steps[2]) && Timely(states[2], steps[2]) && states[3] == Next(states[2], steps[2])
  {
  }

  lemma ReturnRefresh(r: Reading)
    ensures var states, steps := ReturnStates(r), ReturnSteps(r);
            && Delivered(states[0], steps[0]) && states[1] == Next(states[0], steps[0])
            && states[4] == Next(states[3], steps[3])
  {
    var rows := map["op" := Joined(GENESIS_BLOCK, 1)];
    assert Serves(rows, "op", 1);
    assert StaleAfter(map["op" := Joined(GENESIS_BLOCK + 13, 2)], rows, 1) == {"op"};
  }

  lemma ReturnStarts(r: Reading)
    ensures Initial(ReturnStates(r)[0])
  {
    assert GetEffectiveEpochByBlockNumber(GENESIS_BLOCK) == 1;
  }

  lemma ReturnRun(r: Reading)
    ensures TimelyRun(ReturnStates(r), ReturnSteps(r))
  {
    ReturnStarts(r);
    ReturnEvents(r);
    ReturnRefresh(r);
  }

  // The row ends up active although its service starts only later.
  lemma RefreshRaceIsReal(r: Reading)
    ensures TimelyRun(ReturnStates(r), ReturnSteps(r))
    ensures var last := ReturnStates(r)[4];
            && last.refreshed && last.boundary == CalculateCurrentEpochNumber(GENESIS_BLOCK + 12)
            && "op" in last.table && last.table["op"].isActive
            && !IsOperatorActive(GENESIS_BLOCK + 12, last.table["op"].active, last.table["op"].exit)
  {
    ReturnRun(r);
  }

  // An event of the last refreshed epoch, handled while the next refresh is open.
  function LateSteps(): seq<Step> {
    var g: Uint64 := GENESIS_BLOCK;
    [Begin(g + 12, g + 12, true), Commit(map[]), Begin(g + 24, g + 24, true),
     Handle(Registered("op", "k", "p", g + 13)),
     Commit(map[])]
  }

  function LateStates(): seq<State> {
    var g: Uint64 := GENESIS_BLOCK;
    var joined := map["op" := Joined(g + 13, 2)];
    [State(map[], 0, 0, Idle, false, 0, {}),
     State(map[], 0, 1, Listed(1, g + 12, map[]), false, 0, {}),
     State(map[], 1, 1, Idle, true, 1, {}),
     State(map[], 1, 2, Listed(2, g + 24, map[]), true, 1, {}),
     State(joined, 1, 2, Listed(2, g + 24, map[]), true, 1, {}),
     State(joined, 2, 2, Idle, true, 2, {"op"})]
  }

  lemma LateRefreshes()
    ensures var states, steps := LateStates(), LateSteps();
            && Delivered(states[0], steps[0]) && states[1] == Next(states[0], steps[0])
            && states[2] == Next(states[1], steps[1])
            && Delivered(states[2], steps[2]) && states[3] == Next(states[2], steps[2])
  {
    assert StaleAfter(map[], map[], 1) == {};
    assert RefreshAll(map[], map[], GENESIS_BLOCK + 12, map[]) == map[];
  }

  lemma LateEvent()
    ensures var states, steps := LateStates(), LateSteps();
            && Delivered(states[3], steps[3]) && Timely(states[3], steps[3]) && states[4] == Next(states[3], steps[3])
            && states[5] == Next(states[4], steps[4])
  {
    var joined := map["op" := Joined(GENESIS_BLOCK + 13, 2)];
    assert Serves(joined, "op", 2) && StaleAfter(joined, map[], 2) == {"op"};
    assert RefreshAll(joined, map[], GENESIS_BLOCK + 24, map[]) == joined;
  }

  // The row ends up inactive although its service has started.
  lemma LateEventIsMissed()
    ensures TimelyRun(LateStates(), LateSteps())
    ensures var last := LateStates()[5];
            && last.refreshed && last.boundary == CalculateCurrentEpochNumber(GENESIS_BLOCK + 24)
            && "op" in last.table && !last.table["op"].isActive
            && IsOperatorActive(GENESIS_BLOCK + 24, last.table["op"].active, last.table["op"].exit)
  {
    LateRefreshes();
    LateEvent();
  }

  // A tick that reads the last block of one epoch and then the first of the next.
  function SplitSteps(r: Reading): seq<Step> {
    [Begin(GENESIS_BLOCK + 23, GENESIS_BLOCK + 24, true), Commit(map["op" := r])]
  }

  function SplitStates(r: Reading): seq<State> {
    var g: Uint64 := GENESIS_BLOCK;
    var before := map["op" := Joined(g + 12, 2)];
    [State(before, 0, 0, Idle, false, 0, {}),
     State(before, 0, 1, Listed(1, g + 24, before), false, 0, {}),
     State(map["op" := Marked(g + 12, 2, true, r)], 1, 1, Idle, true, 2, {})]
  }

  // The row is recorded as active in epoch 1, at whose blocks it is not in service.
  lemma SplitReadIsReal(r: Reading)
    ensures TimelyRun(SplitStates(r), SplitSteps(r))
    ensures var last := SplitStates(r)[2];
            && last.lastProcessed == last.epochNumber == CalculateCurrentEpochNumber(GENESIS_BLOCK + 23)
            && "op" in last.table && last.table["op"].isActive
            && !IsOperatorActive(GENESIS_BLOCK + 23, last.table["op"].active, last.table["op"].exit)
  {
    var before := map["op" := Joined(GENESIS_BLOCK + 12, 2)];
    assert GetEffectiveEpochByBlockNumber(GENESIS_BLOCK + 12) == 2;
    assert StaleAfter(before, before, 2) == {};
    assert SplitStates(r)[2] == Next(SplitStates(r)[1], SplitSteps(r)[1]);
  }

  // Coming back early forfeits the rest of the old service: a serving operator that leaves and registers again
  // reads as out of service at once, although its exit epoch was still ahead.
  lemma ReregistrationEndsService(t: Table, operator: string, out: Uint64, back: Uint64, key: string, block: Uint64)
    requires operator in t && RowInOrder(t[operator]) && t[operator].exit == NO_EXIT
    requires Scheduled(block) && Scheduled(out) && Scheduled(back) && t[operator].registeredAt <= out <= back
    requires CalculateCurrentEpochNumber(block) == CalculateCurrentEpochNumber(out) == CalculateCurrentEpochNumber(back)
    requires IsOperatorActive(block, t[operator].active, NO_EXIT)
    ensures var left := HandleDeregistered(t, operator, out).value;
            var returned := HandleRegistered(left, operator, key, key, back);
            && IsOperatorActive(block, left[operator].active, left[operator].exit)
            && !IsOperatorActive(block, returned[operator].active, returned[operator].exit)
  {
    EventEpoch(t[operator].registeredAt);
    EventEpoch(out);
    EventEpoch(back);
    EffectiveEpochMonotone(t[operator].registeredAt, out);
    var left := HandleDeregistered(t, operator, out).value;
    IsOperatorActiveInOrder(block, left[operator].active, left[operator].exit);
    IsOperatorActiveInOrder(block, t[operator].active, NO_EXIT);
    IsOperatorActiveInOrder(block, GetEffectiveEpochByBlockNumber(back), NO_EXIT);
  }
}
