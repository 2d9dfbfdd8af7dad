// The code that drives the schedule: the operators repository, the event listener and the epoch updator, each
// method proved against the schedule's step functions.
module OperatorServices {
  import opened Basics
  import opened EpochMath
  import opened OperatorSchedule

  class OperatorRepo {
    var rows: Table

    constructor ()
      ensures rows == map[]
    {
      rows := map[];
    }

    method UpsertOperator(address: string, signingKey: string, p2pKey: string, registeredAt: Uint64, active: Uint32,
                          exit: Uint32, isActive: bool, weight: int)
      modifies this
      ensures rows == old(rows)[address := Operator(signingKey, p2pKey, registeredAt, active, exit, isActive, weight)]
    {
      rows := rows[address := Operator(signingKey, p2pKey, registeredAt, active, exit, isActive, weight)];
    }

    method GetOperatorByAddress(address: string) returns (r: Option<Operator>)
      ensures r == if address in rows then Some(rows[address]) else None
    {
      r := if address in rows then Some(rows[address]) else None;
    }

    method UpdateOperatorExitEpoch(address: string, exit: Uint32)
      modifies this
      ensures rows == if address in old(rows) then old(rows)[address := old(rows)[address].(exit := exit)]
                      else old(rows)
    {
      if address in rows {
        rows := rows[address := rows[address].(exit := exit)];
      }
    }

    method UpdateOperatorState(address: string, isActive: bool, weight: int, signingKey: string, p2pKey: string)
      modifies this
      ensures rows == if address in old(rows)
                      then old(rows)[address := old(rows)[address].(isActive := isActive, weight := weight,
                                                                   signingKey := signingKey, p2pKey := p2pKey)]
                      else old(rows)
    {
      if address in rows {
        rows := rows[address := rows[address].(isActive := isActive, weight := weight,
                                               signingKey := signingKey, p2pKey := p2pKey)];
      }
    }

    // Every address once, in no particular order.
    method ListAllOperators() returns (listed: seq<string>)
      ensures forall a :: a in listed <==> a in rows
      ensures forall i, j :: 0 <= i < j < |listed| ==> listed[i] != listed[j]
    {
      listed := [];
      var rest := rows.Keys;
      while rest != {}
        invariant rest <= rows.Keys
        invariant forall a :: a in listed <==> a in rows && a !in rest
        invariant forall i, j :: 0 <= i < j < |listed| ==> listed[i] != listed[j]
        decreases rest
      {
        var a :| a in rest;
        listed, rest := listed + [a], rest - {a};
      }
    }
  }

  class EventListener {
    const operatorRepo: OperatorRepo

    constructor (operatorRepo: OperatorRepo)
      ensures this.operatorRepo == operatorRepo
    {
      this.operatorRepo := operatorRepo;
    }

    method HandleOperatorRegistered(operator: string, signingKey: string, p2pKey: string, block: Uint64)
      modifies operatorRepo
      ensures operatorRepo.rows == HandleRegistered(old(operatorRepo.rows), operator, signingKey, p2pKey, block)
      ensures operatorRepo.rows ==
                old(operatorRepo.rows)[operator :=
                  Operator(signingKey, p2pKey, block, GetEffectiveEpochByBlockNumber(block), 0xFFFF_FFFF, false, 0)]
    {
      var activeEpoch := GetEffectiveEpochByBlockNumber(block);
      operatorRepo.UpsertOperator(operator, signingKey, p2pKey, block, activeEpoch, NO_EXIT, false, 0);
    }

    // alive is false when the missing row stops the listener.
    method HandleOperatorDeregistered(operator: string, block: Uint64) returns (alive: bool)
      modifies operatorRepo
      ensures match HandleDeregistered(old(operatorRepo.rows), operator, block)
              case Some(t) => alive && operatorRepo.rows == t
              case None => !alive && operatorRepo.rows == old(operatorRepo.rows)
      ensures alive <==> operator in old(operatorRepo.rows)
      ensures alive ==>
                operatorRepo.rows ==
                  old(operatorRepo.rows)[operator := old(operatorRepo.rows)[operator].(
                                           exit := GetEffectiveEpochByBlockNumber(block))]
    {
      var exitEpoch := GetEffectiveEpochByBlockNumber(block);
      var row := operatorRepo.GetOperatorByAddress(operator);
      if row.None? {
        return false;
      }
      operatorRepo.UpdateOperatorExitEpoch(operator, exitEpoch);
      return true;
    }
  }

  function Restrict(t: Table, done: set<string>): Table
    requires done <= t.Keys
  {
    map a | a in done :: t[a]
  }

  lemma RefreshOne(t: Table, done: set<string>, a: string, block: Uint64, readings: map<string, Reading>)
    requires done <= t.Keys && done <= readings.Keys && a in t && a in readings && a !in done
    ensures RefreshAll(t, Restrict(t, done + {a}), block, readings)
         == RefreshAll(t, Restrict(t, done), block, readings)[a := Refreshed(t[a], t[a], block, readings[a])]
  {
  }

  // Outcomes of the calls a tick makes: the two head reads (None fails), the three weight reads behind the epoch
  // state, the listing, the readings per operator (absent fails) and the commit.
  datatype TickCalls = TickCalls(first: Option<Uint64>, second: Option<Uint64>, stateOk: bool, listOk: bool,
                                 readings: map<string, Reading>, commitOk: bool)

  class EpochUpdator {
    const operatorRepo: OperatorRepo
    var epochNumber: Uint32
    var lastProcessedEpoch: Uint32
    ghost var refreshed: bool
    ghost var boundary: Uint32
    ghost var stale: set<string>

    constructor (operatorRepo: OperatorRepo)
      ensures this.operatorRepo == operatorRepo
      ensures Machine() == State(operatorRepo.rows, 0, 0, Idle, false, 0, {})
    {
      this.operatorRepo := operatorRepo;
      epochNumber, lastProcessedEpoch := 0, 0;
      refreshed, boundary, stale := false, 0, {};
    }

    // The schedule state between ticks.
    ghost function Machine(): State
      reads this, operatorRepo
    {
      State(operatorRepo.rows, lastProcessedEpoch, epochNumber, Idle, refreshed, boundary, stale)
    }

    // The row loop inside the transaction; false rolls back.
    method UpdateOperators(block: Uint64, readings: map<string, Reading>) returns (ok: bool)
      modifies operatorRepo
      ensures ok <==> old(operatorRepo.rows).Keys <= readings.Keys
      ensures ok ==> operatorRepo.rows == RefreshAll(old(operatorRepo.rows), old(operatorRepo.rows), block, readings)
    {
      ghost var t := operatorRepo.rows;
      var snapshot := operatorRepo.rows;
      var listed := operatorRepo.ListAllOperators();
      ghost var done: set<string> := {};
      for i := 0 to |listed|
        invariant done == set j | 0 <= j < i :: listed[j]
        invariant done <= t.Keys && done <= readings.Keys
        invariant operatorRepo.rows == RefreshAll(t, Restrict(t, done), block, readings)
      {
        var a := listed[i];
        assert a !in done;
        var isActive := IsOperatorActive(block, snapshot[a].active, snapshot[a].exit);
        if a !in readings {
          return false;
        }
        operatorRepo.UpdateOperatorState(a, isActive, readings[a].weight, readings[a].signingKey, readings[a].p2pKey);
        RefreshOne(t, done, a, block, readings);
        done := done + {a};
      }
      assert done == t.Keys;
      assert Restrict(t, done) == t;
      ok := true;
    }

    method HandleEpochUpdate(currentEpoch: Uint32, calls: TickCalls) returns (ok: bool)
      modifies this`epochNumber, operatorRepo
      ensures ok <==> calls.second.Some? && calls.stateOk && calls.listOk && calls.commitOk
                      && old(operatorRepo.rows).Keys <= calls.readings.Keys
      ensures epochNumber == if calls.second.Some? && calls.stateOk then currentEpoch else old(epochNumber)
      ensures operatorRepo.rows ==
                if ok
                then RefreshAll(old(operatorRepo.rows), old(operatorRepo.rows), calls.second.value, calls.readings)
                else old(operatorRepo.rows)
    {
      if calls.second.None? {
        return false;
      }
      var before := operatorRepo.rows;
      if !calls.stateOk {
        return false;
      }
      epochNumber := currentEpoch;
      if !calls.listOk {
        return false;
      }
      ok := UpdateOperators(calls.second.value, calls.readings);
      if !ok || !calls.commitOk {
        operatorRepo.rows := before;
        return false;
      }
    }

    // One tick of the monitor is: nothing, a failed begin, a begin and an abort, or a begin and a commit.
    method Tick(calls: TickCalls)
      modifies this, operatorRepo
      ensures var s := old(Machine());
              var starts := calls.first.Some? && CalculateCurrentEpochNumber(calls.first.value) > s.lastProcessed;
              if !starts || calls.second.None? || !calls.stateOk then Machine() == s
              else if !calls.listOk then Machine() == Next(s, Begin(calls.first.value, calls.second.value, false))
              else
                var open := Next(s, Begin(calls.first.value, calls.second.value, true));
                Machine() == Next(open, if s.table.Keys <= calls.readings.Keys && calls.commitOk
                                        then Commit(calls.readings) else Abort)
    {
      if calls.first.None? {
        return;
      }
      var currentEpoch := CalculateCurrentEpochNumber(calls.first.value);
      if currentEpoch <= lastProcessedEpoch {
        return;
      }
      var ok := HandleEpochUpdate(currentEpoch, calls);
      if !ok {
        return;
      }
      lastProcessedEpoch := currentEpoch;
      refreshed, boundary, stale := true, CalculateCurrentEpochNumber(calls.second.value), {};
    }
  }
}
