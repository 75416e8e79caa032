/**
 * The balance scheduler of the v3 table scheduler
 * (cdc/scheduler/internal/v3/scheduler_balance.go).
 *
 * On every tick it decides whether to ask the move planner for table moves:
 * a cool-down interval gates the tick unless the previous productive tick
 * forced the next one, and no moves are planned while any capture is
 * stopping. Each planned move becomes one MoveTable schedule task.
 *
 * The clock is an integer. The move planner, whose heuristic and random source
 * are outside this component, is a function value handed to each tick.
 */
module SchedulerV3 {

  type CaptureId = string
  type TableId = int

  /** The states a capture reports; only Stopping matters to the balance scheduler. */
  datatype CaptureState = Uninitialized | Initialized | Stopping

  datatype CaptureStatus = CaptureStatus(state: CaptureState)

  /** The captures currently serving a table; the empty ID means "none". */
  datatype ReplicationSet = ReplicationSet(tableId: TableId, primary: CaptureId, secondary: CaptureId)

  /** A planner decision: move the table to the destination capture. */
  datatype MoveTable = MoveTable(tableId: TableId, destCapture: CaptureId)

  /** A schedule task; the balance scheduler only ever produces the MoveTable kind. */
  datatype ScheduleTask = MoveTableTask(moveTable: MoveTable)

  /**
   * newBalanceMoveTables: from the captures, the replication sets and the
   * concurrency budget, a list of moves. Its random source is part of the
   * function value, so each tick may be handed a different planner.
   */
  type Planner = (map<CaptureId, CaptureStatus>, map<TableId, ReplicationSet>, int) -> seq<MoveTable>

  predicate SomeCaptureStopping(captures: map<CaptureId, CaptureStatus>) {
    exists id :: id in captures && captures[id].state == Stopping
  }

  /** One MoveTable task per move, in the planner's order. */
  function MoveTasks(moves: seq<MoveTable>): seq<ScheduleTask> {
    seq(|moves|, i requires 0 <= i < |moves| => MoveTableTask(moves[i]))
  }

  // ---------------------------------------------------------------------------
  // One tick, as a specification function
  // ---------------------------------------------------------------------------

  /** The part of the scheduler a tick changes. */
  datatype BalanceState = BalanceState(lastRebalanceTime: int, forceBalance: bool)

  datatype TickResult = TickResult(state: BalanceState, tasks: seq<ScheduleTask>)

  /** Schedule at clock reading `now`, where `moves` is what the planner returns if it is asked. */
  function Tick(s: BalanceState, checkBalanceInterval: int, now: int,
                captures: map<CaptureId, CaptureStatus>, moves: seq<MoveTable>): (r: TickResult)
    ensures |r.tasks| <= |moves|
    ensures r.tasks != [] ==> r.state.forceBalance && !SomeCaptureStopping(captures)
    ensures r.state.lastRebalanceTime == s.lastRebalanceTime || r.state.lastRebalanceTime == now
  {
    if !s.forceBalance && now - s.lastRebalanceTime < checkBalanceInterval then
      TickResult(s, [])
    else
      var gated := if s.forceBalance then s else s.(lastRebalanceTime := now);
      if SomeCaptureStopping(captures) then
        TickResult(gated, [])
      else
        var tasks := MoveTasks(moves);
        TickResult(gated.(forceBalance := |tasks| != 0), tasks)
  }

  /** A tick that reaches the planner: the gate is open and no capture is stopping. */
  predicate ReachesPlanner(s: BalanceState, checkBalanceInterval: int, now: int,
                           captures: map<CaptureId, CaptureStatus>)
  {
    (s.forceBalance || now - s.lastRebalanceTime >= checkBalanceInterval) && !SomeCaptureStopping(captures)
  }

  /** Inside the cool-down interval and not forced, a tick produces nothing and changes nothing. */
  lemma TickCoolDown(s: BalanceState, checkBalanceInterval: int, now: int,
                     captures: map<CaptureId, CaptureStatus>, moves: seq<MoveTable>)
    requires !s.forceBalance && now - s.lastRebalanceTime < checkBalanceInterval
    ensures Tick(s, checkBalanceInterval, now, captures, moves) == TickResult(s, [])
  {
  }

  /**
   * Once the interval has elapsed, an unforced tick stamps `now` as the last
   * rebalance time, and keeps that stamp even when a stopping capture then
   * aborts it; a forced tick never touches the stamp.
   */
  lemma TickStamp(s: BalanceState, checkBalanceInterval: int, now: int,
                  captures: map<CaptureId, CaptureStatus>, moves: seq<MoveTable>)
    ensures var r := Tick(s, checkBalanceInterval, now, captures, moves);
      (!s.forceBalance && now - s.lastRebalanceTime >= checkBalanceInterval ==> r.state.lastRebalanceTime == now) &&
      (s.forceBalance ==> r.state.lastRebalanceTime == s.lastRebalanceTime)
  {
  }

  /** Past the gate, a stopping capture aborts the tick with no tasks and forceBalance untouched. */
  lemma TickStoppingAborts(s: BalanceState, checkBalanceInterval: int, now: int,
                           captures: map<CaptureId, CaptureStatus>, moves: seq<MoveTable>)
    requires SomeCaptureStopping(captures)
    ensures var r := Tick(s, checkBalanceInterval, now, captures, moves);
      r.tasks == [] && r.state.forceBalance == s.forceBalance
  {
  }

  /**
   * A tick that reaches the planner wraps each move as one task, in order,
   * and re-arms forceBalance exactly when it produced tasks.
   */
  lemma TickPlans(s: BalanceState, checkBalanceInterval: int, now: int,
                  captures: map<CaptureId, CaptureStatus>, moves: seq<MoveTable>)
    requires ReachesPlanner(s, checkBalanceInterval, now, captures)
    ensures var r := Tick(s, checkBalanceInterval, now, captures, moves);
      |r.tasks| == |moves| &&
      (forall i :: 0 <= i < |moves| ==> r.tasks[i] == MoveTableTask(moves[i])) &&
      (r.state.forceBalance <==> |r.tasks| != 0)
  {
  }

  /** Whatever a tick does, its tasks number at most the planner's moves, so the planner's budget bounds them. */
  lemma TickWithinBudget(s: BalanceState, checkBalanceInterval: int, now: int,
                         captures: map<CaptureId, CaptureStatus>, moves: seq<MoveTable>, maxTaskConcurrency: int)
    requires |moves| <= maxTaskConcurrency
    ensures |Tick(s, checkBalanceInterval, now, captures, moves).tasks| <= maxTaskConcurrency
  {
  }

  /** A productive tick lets the next tick past the gate whatever the clock then reads. */
  lemma ProductiveTickForcesNext(s: BalanceState, checkBalanceInterval: int, now: int,
                                 captures: map<CaptureId, CaptureStatus>, moves: seq<MoveTable>,
                                 now2: int, captures2: map<CaptureId, CaptureStatus>)
    requires Tick(s, checkBalanceInterval, now, captures, moves).tasks != []
    requires !SomeCaptureStopping(captures2)
    ensures ReachesPlanner(Tick(s, checkBalanceInterval, now, captures, moves).state, checkBalanceInterval, now2, captures2)
  {
  }

  /** The environment of one tick: the clock reading, the captures, and what the planner would return. */
  datatype TickInput = TickInput(now: int, captures: map<CaptureId, CaptureStatus>, moves: seq<MoveTable>)

  /** A series of ticks: the final state and all tasks produced, in order. */
  function Run(s: BalanceState, checkBalanceInterval: int, ticks: seq<TickInput>): TickResult
    decreases |ticks|
  {
    if ticks == [] then TickResult(s, [])
    else
      var first := Tick(s, checkBalanceInterval, ticks[0].now, ticks[0].captures, ticks[0].moves);
      var rest := Run(first.state, checkBalanceInterval, ticks[1..]);
      TickResult(rest.state, first.tasks + rest.tasks)
  }

  /**
   * Ticks whose planner finds nothing to move never produce a task and never
   * turn forceBalance on, so an idle cluster is not re-balanced faster than
   * the cool-down interval allows; the last rebalance time never decreases
   * when the clock does not run backwards.
   */
  lemma {:induction false} IdleTicksStayUnforced(s: BalanceState, checkBalanceInterval: int, ticks: seq<TickInput>)
    requires !s.forceBalance
    requires forall i :: 0 <= i < |ticks| ==> ticks[i].moves == []
    requires forall i :: 0 <= i < |ticks| ==> s.lastRebalanceTime <= ticks[i].now
    requires forall i, j :: 0 <= i < j < |ticks| ==> ticks[i].now <= ticks[j].now
    ensures var r := Run(s, checkBalanceInterval, ticks);
      !r.state.forceBalance && r.tasks == [] && s.lastRebalanceTime <= r.state.lastRebalanceTime
    decreases |ticks|
  {
    if ticks != [] {
      var first := Tick(s, checkBalanceInterval, ticks[0].now, ticks[0].captures, ticks[0].moves);
      assert MoveTasks([]) == [];
      assert s.lastRebalanceTime <= first.state.lastRebalanceTime <= ticks[0].now;
      assert forall i :: 0 <= i < |ticks[1..]| ==> ticks[1..][i] == ticks[i + 1];
      IdleTicksStayUnforced(first.state, checkBalanceInterval, ticks[1..]);
    }
  }

  // ---------------------------------------------------------------------------
  // The scheduler and the loops it runs
  // ---------------------------------------------------------------------------

  /** The early-exit scan over the captures: is any of them stopping? */
  method HasStoppingCapture(captures: map<CaptureId, CaptureStatus>) returns (stopping: bool)
    ensures stopping <==> SomeCaptureStopping(captures)
  {
    var remaining := captures.Keys;
    while remaining != {}
      invariant remaining <= captures.Keys
      invariant forall id :: id in captures && id !in remaining ==> captures[id].state != Stopping
      decreases remaining
    {
      var id :| id in remaining;
      if captures[id].state == Stopping {
        return true;
      }
      remaining := remaining - {id};
    }
    return false;
  }

  /** Table `t` is listed under capture `c`, unless `c` is the empty ID. */
  predicate ListedUnder(captureTables: map<CaptureId, seq<TableId>>, c: CaptureId, t: TableId) {
    c != "" ==> c in captureTables && t in captureTables[c]
  }

  /** Every current table with a replication set is listed under its primary and its secondary. */
  predicate GroupedCompletely(captureTables: map<CaptureId, seq<TableId>>, tables: seq<TableId>,
                              replications: map<TableId, ReplicationSet>)
  {
    forall t :: t in tables && t in replications ==>
      ListedUnder(captureTables, replications[t].primary, t) &&
      ListedUnder(captureTables, replications[t].secondary, t)
  }

  /** Only non-empty captures are keys, and a capture lists only current tables it serves. */
  predicate GroupedSoundly(captureTables: map<CaptureId, seq<TableId>>, tables: seq<TableId>,
                           replications: map<TableId, ReplicationSet>)
  {
    forall c :: c in captureTables ==>
      c != "" &&
      (forall t :: t in captureTables[c] ==>
         t in tables && t in replications && (replications[t].primary == c || replications[t].secondary == c))
  }

  /** captureTables[c] = append(captureTables[c], t), a missing key reading as the empty list. */
  function AppendUnder(captureTables: map<CaptureId, seq<TableId>>, c: CaptureId, t: TableId): map<CaptureId, seq<TableId>> {
    captureTables[c := (if c in captureTables then captureTables[c] else []) + [t]]
  }

  /** Appending keeps every earlier listing and adds the new one. */
  lemma AppendUnderListed(captureTables: map<CaptureId, seq<TableId>>, c: CaptureId, t: TableId)
    requires c != ""
    ensures ListedUnder(AppendUnder(captureTables, c, t), c, t)
    ensures forall c2, t2 :: ListedUnder(captureTables, c2, t2) ==> ListedUnder(AppendUnder(captureTables, c, t), c2, t2)
  {
    var m := AppendUnder(captureTables, c, t);
    forall c2, t2 | ListedUnder(captureTables, c2, t2) ensures ListedUnder(m, c2, t2) {
      if c2 == c && c2 != "" {
        assert m[c] == captureTables[c] + [t];
      }
    }
  }

  lemma AppendUnderSound(captureTables: map<CaptureId, seq<TableId>>, tables: seq<TableId>,
                         replications: map<TableId, ReplicationSet>, c: CaptureId, t: TableId)
    requires GroupedSoundly(captureTables, tables, replications)
    requires c != "" && t in tables && t in replications
    requires replications[t].primary == c || replications[t].secondary == c
    ensures GroupedSoundly(AppendUnder(captureTables, c, t), tables, replications)
  {
  }

  lemma SoundlyForLongerTables(captureTables: map<CaptureId, seq<TableId>>, tables: seq<TableId>,
                               t: TableId, replications: map<TableId, ReplicationSet>)
    requires GroupedSoundly(captureTables, tables, replications)
    ensures GroupedSoundly(captureTables, tables + [t], replications)
  {
  }

  /**
   * The grouping step of buildBalanceMoveTables: every current table that has
   * a replication set is listed under its non-empty primary and under its
   * non-empty secondary capture; other tables are skipped.
   */
  method GroupTablesByCapture(currentTables: seq<TableId>, replications: map<TableId, ReplicationSet>)
    returns (captureTables: map<CaptureId, seq<TableId>>)
    ensures GroupedCompletely(captureTables, currentTables, replications)
    ensures GroupedSoundly(captureTables, currentTables, replications)
  {
    captureTables := map[];
    var i := 0;
    while i < |currentTables|
      invariant 0 <= i <= |currentTables|
      invariant GroupedCompletely(captureTables, currentTables[..i], replications)
      invariant GroupedSoundly(captureTables, currentTables[..i], replications)
    {
      var tableId := currentTables[i];
      assert currentTables[..i + 1] == currentTables[..i] + [tableId];
      SoundlyForLongerTables(captureTables, currentTables[..i], tableId, replications);
      ghost var before := captureTables;
      if tableId in replications {
        var rep := replications[tableId];
        if rep.primary != "" {
          AppendUnderListed(captureTables, rep.primary, tableId);
          AppendUnderSound(captureTables, currentTables[..i + 1], replications, rep.primary, tableId);
          captureTables := AppendUnder(captureTables, rep.primary, tableId);
        }
        if rep.secondary != "" {
          AppendUnderListed(captureTables, rep.secondary, tableId);
          AppendUnderSound(captureTables, currentTables[..i + 1], replications, rep.secondary, tableId);
          captureTables := AppendUnder(captureTables, rep.secondary, tableId);
        }
      }
      assert forall c2, t2 :: ListedUnder(before, c2, t2) ==> ListedUnder(captureTables, c2, t2);
      i := i + 1;
    }
    assert currentTables[..i] == currentTables;
  }

  /**
   * buildBalanceMoveTables: group the tables by capture (the grouping is not
   * handed to the planner), ask the planner, and wrap each move as one task.
   */
  method BuildBalanceMoveTables(planner: Planner, currentTables: seq<TableId>,
                                captures: map<CaptureId, CaptureStatus>,
                                replications: map<TableId, ReplicationSet>, maxTaskConcurrency: int)
    returns (tasks: seq<ScheduleTask>)
    ensures var moves := planner(captures, replications, maxTaskConcurrency);
      |tasks| == |moves| && forall i :: 0 <= i < |moves| ==> tasks[i].moveTable == moves[i]
  {
    var captureTables := GroupTablesByCapture(currentTables, replications);
    var moves := planner(captures, replications, maxTaskConcurrency);
    tasks := [];
    var i := 0;
    while i < |moves|
      invariant 0 <= i <= |moves|
      invariant |tasks| == i
      invariant forall j :: 0 <= j < i ==> tasks[j].moveTable == moves[j]
    {
      tasks := tasks + [MoveTableTask(moves[i])];
      i := i + 1;
    }
  }

  /** balanceScheduler: the cool-down state and the planner's concurrency budget. */
  class BalanceScheduler {
    var lastRebalanceTime: int
    const checkBalanceInterval: int
    var forceBalance: bool
    const maxTaskConcurrency: int

    /** newBalanceScheduler; the zero time.Time of the last rebalance is clock reading 0. */
    constructor (interval: int, concurrency: int)
      ensures checkBalanceInterval == interval && maxTaskConcurrency == concurrency
      ensures lastRebalanceTime == 0 && !forceBalance
    {
      checkBalanceInterval := interval;
      maxTaskConcurrency := concurrency;
      lastRebalanceTime := 0;
      forceBalance := false;
    }

    function State(): BalanceState
      reads this
    {
      BalanceState(lastRebalanceTime, forceBalance)
    }

    /** Schedule: one tick at clock reading `now`. */
    method Schedule(now: int, planner: Planner, currentTables: seq<TableId>,
                    captures: map<CaptureId, CaptureStatus>, replications: map<TableId, ReplicationSet>)
      returns (tasks: seq<ScheduleTask>)
      modifies this`lastRebalanceTime, this`forceBalance
      ensures var r := Tick(old(State()), checkBalanceInterval, now, captures,
                            planner(captures, replications, maxTaskConcurrency));
        State() == r.state && tasks == r.tasks
    {
      if !forceBalance {
        if now - lastRebalanceTime < checkBalanceInterval {
          return [];
        }
        lastRebalanceTime := now;
      }

      var stopping := HasStoppingCapture(captures);
      if stopping {
        return [];
      }

      tasks := BuildBalanceMoveTables(planner, currentTables, captures, replications, maxTaskConcurrency);
      assert tasks == MoveTasks(planner(captures, replications, maxTaskConcurrency));
      forceBalance := |tasks| != 0;
    }
  }
}
