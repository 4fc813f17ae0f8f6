/**
  The mission loop in the program's own form: a ready queue object and a mission object whose
  methods update their fields, each tied to the step of the state machine it performs.
*/
module MissionObjects {
  import opened Common
  import opened Missions
  import opened MissionSafety
  import opened MissionTheorems
  import opened MissionTermination
  import opened MissionOutcomes

  /** The statuses initializeFromPlan has written after scanning some of the plan. */
  function InitStatus(plan: Plan, scanned: seq<Id>): map<Id, TaskStatus> {
    map t | t in plan.deps && t in scanned :: if plan.deps[t] == [] then READY else BLOCKED
  }

  /** The statuses unlockReadyTasks has written after scanning some of the plan. */
  function UnlockedIn(plan: Plan, scanned: seq<Id>, status: map<Id, TaskStatus>, done: set<Id>): map<Id, TaskStatus> {
    map t | t in status :: if t in scanned && Unlockable(plan, status, done, t) then READY else status[t]
  }

  ghost predicate Indexed(plan: Plan) {
    NoDup(plan.order) && plan.deps.Keys == Elems(plan.order)
  }

  lemma InitScanStep(plan: Plan, i: nat)
    requires Indexed(plan) && i < |plan.order|
    ensures var t := plan.order[i];
      && t in plan.deps
      && InitStatus(plan, plan.order[..i + 1]) ==
         InitStatus(plan, plan.order[..i])[t := if plan.deps[t] == [] then READY else BLOCKED]
      && Roots(plan, plan.order[..i + 1]) == Roots(plan, plan.order[..i]) + if plan.deps[t] == [] then [t] else []
  {
    assert plan.order[i] in Elems(plan.order);
    assert plan.order[..i + 1][..i] == plan.order[..i];
  }

  lemma UnlockScanStep(plan: Plan, i: nat, status: map<Id, TaskStatus>, queue: seq<Id>, done: set<Id>)
    requires Indexed(plan) && i < |plan.order| && status.Keys == plan.deps.Keys
    ensures var t := plan.order[i];
      && t in plan.deps
      && UnlockedIn(plan, plan.order[..i], status, done)[t] == status[t]
      && UnlockedIn(plan, plan.order[..i + 1], status, done) ==
         (if Unlockable(plan, status, done, t) then UnlockedIn(plan, plan.order[..i], status, done)[t := READY]
          else UnlockedIn(plan, plan.order[..i], status, done))
  {
    hide Unlockable;
    assert plan.order[i] in Elems(plan.order) && plan.order[i] !in plan.order[..i];
    hide NoDup, Elems;
    assert plan.order[..i + 1] == plan.order[..i] + [plan.order[i]];
  }

  lemma QueueScanStep(plan: Plan, i: nat, status: map<Id, TaskStatus>, queue: seq<Id>, done: set<Id>)
    requires Indexed(plan) && i < |plan.order|
    ensures var t := plan.order[i];
      && NewlyReady(plan, plan.order[..i + 1], status, queue, done) ==
         NewlyReady(plan, plan.order[..i], status, queue, done) +
           (if Unlockable(plan, status, done, t) && t !in queue then [t] else [])
      && t !in NewlyReady(plan, plan.order[..i], status, queue, done)
  {
    assert plan.order[..i + 1][..i] == plan.order[..i];
    NewlyReadyFacts(plan, plan.order[..i], status, queue, done);
    hide Unlockable;
  }

  lemma InitScanStart(plan: Plan)
    ensures InitStatus(plan, plan.order[..0]) == map[] && Roots(plan, plan.order[..0]) == []
  {
  }

  lemma UnlockScanStart(plan: Plan, status: map<Id, TaskStatus>, queue: seq<Id>, done: set<Id>)
    ensures UnlockedIn(plan, plan.order[..0], status, done) == status
    ensures NewlyReady(plan, plan.order[..0], status, queue, done) == []
  {
  }

  lemma WholeScan(plan: Plan, status: map<Id, TaskStatus>, done: set<Id>)
    requires Indexed(plan) && status.Keys == plan.deps.Keys
    ensures plan.order[..|plan.order|] == plan.order
    ensures UnlockedIn(plan, plan.order, status, done) == Unlocked(plan, status, done)
  {
    assert plan.order[..|plan.order|] == plan.order;
    assert forall t :: t in plan.deps ==> t in Elems(plan.order);
    hide Unlockable;
  }

  lemma InitMeans(plan: Plan)
    requires Indexed(plan)
    ensures var queue, status := Roots(plan, plan.order), InitStatus(plan, plan.order);
      && NoDup(queue) && Subsequence(queue, plan.order)
      && (forall t :: t in queue <==> t in plan.deps && plan.deps[t] == [])
      && status.Keys == plan.deps.Keys && forall t :: t in status ==> status[t] == if t in queue then READY else BLOCKED
  {
    RootsInOrder(plan, plan.order);
    RootsFacts(plan, plan.order);
    assert forall t :: t in plan.order <==> t in Elems(plan.order);
  }

  lemma UnlockedMeans(plan: Plan, status: map<Id, TaskStatus>, done: set<Id>)
    ensures var next := Unlocked(plan, status, done);
      && next.Keys == status.Keys
      && forall t :: t in next ==> next[t] == if Unblocks(plan, status, done, t) then READY else status[t]
  {
  }

  class ReadyTaskQueue {
    var queue: seq<Id>

    constructor ()
      ensures queue == []
    {
      queue := [];
    }

    /** Queues the tasks without dependencies and blocks the others; returns the task statuses. */
    method InitializeFromPlan(plan: Plan) returns (status: map<Id, TaskStatus>)
      requires Indexed(plan)
      modifies this
      ensures queue == Roots(plan, plan.order) && status == InitStatus(plan, plan.order)
      ensures NoDup(queue) && Subsequence(queue, plan.order)
      ensures forall t :: t in queue <==> t in plan.deps && plan.deps[t] == []
      ensures status.Keys == plan.deps.Keys
      ensures forall t :: t in status ==> status[t] == if t in queue then READY else BLOCKED
    {
      InitMeans(plan);
      hide Roots, InitStatus, NoDup, Elems;
      queue, status := [], map[];
      InitScanStart(plan);
      for i := 0 to |plan.order|
        invariant queue == Roots(plan, plan.order[..i]) && status == InitStatus(plan, plan.order[..i])
      {
        var t := plan.order[i];
        InitScanStep(plan, i);
        if plan.deps[t] == [] {
          status := status[t := READY];
          queue := queue + [t];
        } else {
          status := status[t := BLOCKED];
        }
      }
      assert plan.order[..|plan.order|] == plan.order;
    }

    /** Moves every blocked task whose dependencies have all completed to READY and queues it. */
    method UnlockReadyTasks(plan: Plan, status: map<Id, TaskStatus>, completedTaskIds: set<Id>)
      returns (next: map<Id, TaskStatus>, newlyUnlocked: seq<Id>)
      requires Indexed(plan) && status.Keys == plan.deps.Keys
      modifies this
      ensures newlyUnlocked == NewlyReady(plan, plan.order, status, old(queue), completedTaskIds)
      ensures queue == old(queue) + newlyUnlocked
      ensures next == Unlocked(plan, status, completedTaskIds)
      ensures NoDup(newlyUnlocked) && Subsequence(newlyUnlocked, plan.order)
      ensures forall t :: t in newlyUnlocked <==> Unblocks(plan, status, completedTaskIds, t) && t !in old(queue)
      ensures next.Keys == status.Keys
      ensures forall t :: t in next ==>
        next[t] == if Unblocks(plan, status, completedTaskIds, t) then READY else status[t]
    {
      hide NewlyReady, UnlockedIn, Unlocked, NoDup, Elems, Subsequence, Unblocks;
      ghost var before := queue;
      next, newlyUnlocked := status, [];
      UnlockScanStart(plan, status, before, completedTaskIds);
      for i := 0 to |plan.order|
        invariant newlyUnlocked == NewlyReady(plan, plan.order[..i], status, before, completedTaskIds)
        invariant queue == before + newlyUnlocked
        invariant next == UnlockedIn(plan, plan.order[..i], status, completedTaskIds)
        invariant next.Keys == status.Keys
      {
        var t := plan.order[i];
        UnlockScanStep(plan, i, status, before, completedTaskIds);
        QueueScanStep(plan, i, status, before, completedTaskIds);
        if next[t] == BLOCKED || next[t] == PENDING {
          var allDepsSatisfied := forall d | d in plan.deps[t] :: d in completedTaskIds;
          if allDepsSatisfied {
            next := next[t := READY];
            if t !in queue {
              queue := queue + [t];
              newlyUnlocked := newlyUnlocked + [t];
            }
          }
        }
      }
      WholeScan(plan, status, completedTaskIds);
      UnlockAppends(plan, status, before, completedTaskIds);
      UnlockedMeans(plan, status, completedTaskIds);
    }

    method PopNextReadyTask() returns (task: Option<Id>)
      modifies this
      ensures old(queue) == [] ==> task == None && queue == []
      ensures old(queue) != [] ==> task == Some(old(queue)[0]) && queue == old(queue)[1..]
    {
      if queue == [] {
        return None;
      }
      task := Some(queue[0]);
      queue := queue[1..];
    }
  }

  // What the loop below needs to know about runs.

  lemma EmptyRun(c: Config)
    ensures Run(c, [], Init(c.plan))
  {
  }

  lemma Advance(c: Config, actions: seq<Action>, s: State, a: Action)
    requires c.Valid() && Run(c, actions, s) && Enabled(c, s, a)
    ensures Run(c, actions + [a], Apply(c, s, a)) && Remaining(c, Apply(c, s, a)) < Remaining(c, s)
  {
    hide Apply, Enabled, Init, Inv, Remaining;
    RunKeepsInv(c, actions, s);
    StepLeavesLess(c, s, a);
    assert (actions + [a])[..|actions|] == actions;
  }

  lemma HeadMoves(c: Config, actions: seq<Action>, s: State)
    requires c.Valid() && Run(c, actions, s) && s.loop.Head?
    ensures s.running == [] && Enabled(c, s, if Stopping(c, s) then Stop else Pop)
  {
    hide Run, NoDup, Elems, Disjoint;
    BookkeepingAlways(c, actions, s);
  }

  lemma BatchBody(c: Config, actions: seq<Action>, s: State, t: Id)
    requires c.Valid() && Run(c, actions, s) && s.loop.Batch? && t in s.loop.tasks
    ensures Indexed(c.plan) && s.status.Keys == s.phase.Keys == c.plan.deps.Keys
    ensures t in s.phase && !s.phase[t].Idle?
  {
    RunKeepsInv(c, actions, s);
    hide Run, Bookkeeping, Queued, TasksOk, Ordered;
  }

  lemma BatchJoins(c: Config, actions: seq<Action>, s: State)
    requires c.Valid() && Run(c, actions, s) && s.loop.Batch?
    requires forall t :: t in s.loop.tasks && t in s.phase ==> s.phase[t].Finished?
    ensures Enabled(c, s, JoinAll)
  {
    RunKeepsInv(c, actions, s);
    hide Run, Bookkeeping, Queued, TasksOk, Ordered;
  }

  class MissionExecution {
    const readyQueue: ReadyTaskQueue
    var status: map<Id, TaskStatus>
    var pendingTaskIds: seq<Id>
    var runningTaskIds: seq<Id>
    var completedTaskIds: seq<Id>
    var failedTaskIds: seq<Id>
    var completedSet: set<Id>
    var reports: map<Id, Stored>
    /** Where the loop and each suspended task body stand. */
    var loop: Loop
    var bodies: map<Id, Phase>

    ghost function View(): State
      reads this, readyQueue
    {
      State(loop, bodies, status, readyQueue.queue, pendingTaskIds, runningTaskIds, completedTaskIds, failedTaskIds,
            completedSet, reports)
    }

    constructor (c: Config)
      requires c.Valid()
      ensures View() == Init(c.plan) && fresh(readyQueue)
    {
      readyQueue := new ReadyTaskQueue();
      pendingTaskIds, runningTaskIds, completedTaskIds, failedTaskIds := c.plan.order, [], [], [];
      completedSet, reports := {}, map[];
      loop, bodies := Head, map t | t in c.plan.deps :: Idle;
      new;
      status := readyQueue.InitializeFromPlan(c.plan);
      assert forall t :: t in c.plan.deps ==> t in Elems(c.plan.order);
      assert status == Init(c.plan).status;
    }

    /** Takes queued tasks until the queue is empty or maxParallelWorkers would be exceeded. */
    method PopBatch(c: Config)
      requires Enabled(c, View(), Pop)
      modifies this, readyQueue
      ensures View() == Apply(c, old(View()), Pop) && loop.Batch?
    {
      ghost var before := View();
      var batch: seq<Id> := [];
      while readyQueue.queue != [] && |runningTaskIds| + |batch| < c.policy.maxParallelWorkers
        invariant |batch| <= Slots(c, before) <= |before.queue|
        invariant batch == before.queue[..|batch|] && readyQueue.queue == before.queue[|batch|..]
        invariant View() == before.(queue := readyQueue.queue)
        decreases |readyQueue.queue|
      {
        var task := readyQueue.PopNextReadyTask();
        batch := batch + [task.value];
      }
      bodies := map t | t in bodies :: if t in batch then Popped else bodies[t];
      loop := Batch(batch);
    }

    /** The hand-off for one dispatch: an entry for each dependency that has filed a report. */
    method CollectHandoff(deps: seq<Id>) returns (entries: map<Id, Entry>)
      ensures entries == Entries(deps, reports)
    {
      entries := map[];
      for i := 0 to |deps|
        invariant entries == Entries(deps[..i], reports)
      {
        if deps[i] in reports {
          entries := entries[deps[i] := EntryOf(reports[deps[i]].report)];
        }
      }
      assert deps[..|deps|] == deps;
    }

    // One method for each stretch of a task body between two awaits.

    method Begin(c: Config, t: Id)
      requires Enabled(c, View(), Start(t))
      modifies this
      ensures View() == Apply(c, old(View()), Start(t)) && loop == old(loop)
    {
      pendingTaskIds := Without(pendingTaskIds, t);
      runningTaskIds := runningTaskIds + [t];
      bodies := bodies[t := Looping(FRESH)];
    }

    method DispatchAttempt(c: Config, t: Id)
      requires Enabled(c, View(), Dispatch(t))
      modifies this
      ensures View() == Apply(c, old(View()), Dispatch(t)) && loop == old(loop)
    {
      hide Entries;
      var entries := CollectHandoff(c.plan.deps[t]);
      status := status[t := RUNNING];
      bodies := bodies[t := InFlight(bodies[t].l, entries)];
    }

    method SettleAttempt(c: Config, t: Id)
      requires Enabled(c, View(), Settle(t))
      modifies this
      ensures View() == Apply(c, old(View()), Settle(t)) && loop == old(loop)
    {
      hide Join, Entries;
      var l, attempt := bodies[t].l, bodies[t].l.attempt + 1;
      var res := c.world.dispatch(t, attempt, HandoffFor(bodies[t].entries, l));
      var taskSuccess, lastReport, lastVerification := false, res.report, l.verification;
      if res.success && res.report.Some? && res.report.value.completed {
        var report := res.report.value;
        var vResult := c.world.verify(t, attempt, report);
        lastVerification := Some(vResult);
        if vResult.success {
          var mergeError := c.world.merge(t, attempt);
          taskSuccess := mergeError.None?;
          if mergeError.Some? {
            lastReport := Some(report.(summary := report.summary + " [Git merge failed: " + mergeError.value + "]"));
          }
        } else {
          var errors := Join(vResult.errors);
          lastReport := Some(report.(summary := report.summary + " [Verification Failed: " + errors + "]"));
        }
      }
      bodies := bodies[t := Looping(Locals(attempt, taskSuccess, lastReport, lastVerification))];
    }

    method LeaveLoop(c: Config, t: Id)
      requires Enabled(c, View(), Leave(t))
      modifies this
      ensures View() == Apply(c, old(View()), Leave(t)) && loop == old(loop)
    {
      var l := bodies[t].l;
      runningTaskIds := Without(runningTaskIds, t);
      reports := File(reports, t, l);
      status := status[t := if l.ok then COMPLETED else FAILED];
      bodies := bodies[t := Leaving(l)];
    }

    method RecordOutcome(c: Config, t: Id)
      requires Enabled(c, View(), Record(t))
      modifies this
      ensures View() == Apply(c, old(View()), Record(t)) && loop == old(loop)
    {
      var l := bodies[t].l;
      if l.ok {
        completedTaskIds := completedTaskIds + [t];
        completedSet := completedSet + {t};
        bodies := bodies[t := Notifying(l)];
      } else {
        failedTaskIds := failedTaskIds + [t];
        bodies := bodies[t := Finished(l)];
      }
    }

    method UnlockDownstream(c: Config, t: Id)
      requires Indexed(c.plan) && status.Keys == c.plan.deps.Keys
      requires Enabled(c, View(), Unlock(t))
      modifies this, readyQueue
      ensures View() == Apply(c, old(View()), Unlock(t)) && loop == old(loop)
    {
      hide NewlyReady, Unlocked, NoDup, Elems;
      var newlyUnlocked;
      status, newlyUnlocked := readyQueue.UnlockReadyTasks(c.plan, status, completedSet);
      bodies := bodies[t := Finished(bodies[t].l)];
    }

    /** Runs the body of task t from the await it is suspended at to its next await. */
    method StepBody(c: Config, t: Id) returns (ghost a: Action)
      requires Indexed(c.plan) && status.Keys == c.plan.deps.Keys && bodies.Keys == c.plan.deps.Keys
      requires t in bodies && !bodies[t].Idle? && !bodies[t].Finished?
      modifies this, readyQueue
      ensures Enabled(c, old(View()), a) && View() == Apply(c, old(View()), a) && loop == old(loop)
    {
      hide Apply, NoDup, Elems, GoesOn;
      match bodies[t]
      case Popped =>
        a := Start(t);
        Begin(c, t);
      case Looping(l) =>
        if GoesOn(c, l) {
          a := Dispatch(t);
          DispatchAttempt(c, t);
        } else {
          a := Leave(t);
          LeaveLoop(c, t);
        }
      case InFlight(_, _) =>
        a := Settle(t);
        SettleAttempt(c, t);
      case Leaving(_) =>
        a := Record(t);
        RecordOutcome(c, t);
      case Notifying(_) =>
        a := Unlock(t);
        UnlockDownstream(c, t);
    }

    /** All bodies have ended: goes round again, unless a task failed and nothing is left to run. */
    method JoinBatch(c: Config)
      requires Enabled(c, View(), JoinAll)
      modifies this
      ensures View() == Apply(c, old(View()), JoinAll) && !loop.Batch?
    {
      loop := if failedTaskIds != [] && readyQueue.queue == [] && runningTaskIds == [] then Over else Head;
    }

    method LeaveMission(c: Config)
      requires Enabled(c, View(), Stop)
      modifies this
      ensures View() == Apply(c, old(View()), Stop) && loop.Over?
    {
      loop := Over;
    }

    /**
      The mission loop.  Where several bodies are suspended the next one to run is picked arbitrarily,
      so what holds at the end holds for every interleaving.
    */
    method Execute(c: Config) returns (success: bool, ghost actions: seq<Action>)
      requires c.Valid() && View() == Init(c.plan)
      modifies this, readyQueue
      ensures Run(c, actions, View()) && loop.Over?
      ensures success <==> Elems(completedTaskIds) == Elems(c.plan.order)
      ensures Fixpoint(c, Achieved(View())) && Elems(completedTaskIds) == Achieved(View()).Keys
      ensures forall m :: Closed(c, m) ==> Within(Achieved(View()), m)
      ensures forall t :: t in completedTaskIds ==> WasVerified(c, View(), t)
    {
      hide Run, Apply, Inv, Remaining, Fixpoint, Closed, Within, Achieved, Elems, NoDup, WasVerified;
      actions := [];
      EmptyRun(c);
      while loop.Head? && |completedSet| < |c.plan.order|
        invariant Run(c, actions, View()) && !loop.Batch?
        decreases Remaining(c, View())
      {
        HeadMoves(c, actions, View());
        if readyQueue.queue == [] && runningTaskIds == [] {
          Advance(c, actions, View(), Stop);
          actions := actions + [Stop];
          LeaveMission(c);
          break;
        }
        Advance(c, actions, View(), Pop);
        actions := actions + [Pop];
        PopBatch(c);
        ghost var popped := View();
        while exists t | t in loop.tasks && t in bodies :: !bodies[t].Finished?
          invariant Run(c, actions, View()) && loop.Batch?
          invariant Remaining(c, View()) <= Remaining(c, popped)
          decreases Remaining(c, View())
        {
          var t :| t in loop.tasks && t in bodies && !bodies[t].Finished?;
          BatchBody(c, actions, View(), t);
          ghost var before := View();
          ghost var a := StepBody(c, t);
          Advance(c, actions, before, a);
          actions := actions + [a];
        }
        BatchJoins(c, actions, View());
        Advance(c, actions, View(), JoinAll);
        actions := actions + [JoinAll];
        JoinBatch(c);
      }
      if loop.Head? {
        HeadMoves(c, actions, View());
        Advance(c, actions, View(), Stop);
        actions := actions + [Stop];
        LeaveMission(c);
      }
      LeastFixpoint(c, actions, View());
      SuccessIffAllCompleted(c, actions, View());
      AllVerified(c, actions, View());
      success := |completedTaskIds| == |c.plan.order|;
    }

  }
}
