/** The mission loop ends for every plan, cyclic or incomplete ones included, and tries each task boundedly often. */
module MissionTermination {
  import opened Common
  import opened Missions
  import opened MissionSafety
  import opened MissionTheorems

  /** An upper bound on the steps a task's body still has to take. */
  ghost function Left(c: Config, p: Phase): nat {
    var budget := c.Budget();
    match p
    case Idle => 2 * budget + 6
    case Popped => 2 * budget + 5
    case Looping(l) => (if l.attempt < budget then 2 * (budget - l.attempt) else 0) + 4
    case InFlight(l, _) => (if l.attempt < budget then 2 * (budget - l.attempt) else 0) + 3
    case Leaving(_) => 3
    case Notifying(_) => 2
    case Finished(_) => 0
  }

  ghost function Sum(c: Config, order: seq<Id>, phase: map<Id, Phase>): nat {
    if order == [] then 0
    else Sum(c, order[1..], phase) + if order[0] in phase then Left(c, phase[order[0]]) else 0
  }

  ghost function Remaining(c: Config, s: State): nat {
    3 * Sum(c, c.plan.order, s.phase) + match s.loop case Head => 1 case Batch(_) => 2 case Over => 0
  }

  lemma {:induction false} SumLess(c: Config, order: seq<Id>, phase: map<Id, Phase>, phase': map<Id, Phase>, t: Id)
    requires phase.Keys == phase'.Keys && t in phase
    requires forall u :: u in phase ==> Left(c, phase'[u]) <= Left(c, phase[u])
    requires Left(c, phase'[t]) < Left(c, phase[t])
    ensures Sum(c, order, phase') <= Sum(c, order, phase)
    ensures t in order ==> Sum(c, order, phase') < Sum(c, order, phase)
  {
    hide Left;
    if order != [] {
      SumLess(c, order[1..], phase, phase', t);
    }
  }

  lemma {:induction false} SumAtMost(c: Config, order: seq<Id>, phase: map<Id, Phase>)
    ensures Sum(c, order, phase) <= |order| * (2 * c.Budget() + 6)
  {
    if order != [] {
      SumAtMost(c, order[1..], phase);
      var most := 2 * c.Budget() + 6;
      LeftAtMost(c, if order[0] in phase then phase[order[0]] else Idle);
      assert |order| * most == |order[1..]| * most + most;
      hide Left;
    }
  }

  lemma LeftAtMost(c: Config, p: Phase)
    ensures Left(c, p) <= 2 * c.Budget() + 6
  {
  }

  lemma MoveLeavesLess(c: Config, s: State, s': State, t: Id)
    requires c.Valid() && s.phase.Keys == c.plan.deps.Keys && t in s.phase && t in s'.phase
    requires s'.phase == s.phase[t := s'.phase[t]] && Left(c, s'.phase[t]) < Left(c, s.phase[t]) && s'.loop == s.loop
    ensures Remaining(c, s') < Remaining(c, s)
  {
    hide Left;
    assert t in c.plan.order by {
      assert t in Elems(c.plan.order);
    }
    SumLess(c, c.plan.order, s.phase, s'.phase, t);
  }

  lemma PopLeavesLess(c: Config, s: State)
    requires c.Valid() && Inv(c, s) && Enabled(c, s, Pop)
    ensures Remaining(c, Apply(c, s, Pop)) < Remaining(c, s)
  {
    PopTakesSome(c, s);
    hide Lists, NoDup, TasksOk, Ordered, Left, Sum, Queued;
    var s' := Apply(c, s, Pop);
    PopPhases(c, s, s');
    assert forall u :: u in s.phase ==> Left(c, s'.phase[u]) <= Left(c, s.phase[u]) by {
      IdleToPopped(c);
    }
    var t := s.queue[0];
    assert t in s'.loop.tasks;
    IdleToPopped(c);
    assert t in s.phase by {
      QueuedInPhase(s);
    }
    assert t in c.plan.order by {
      assert t in Elems(c.plan.order);
    }
    SumLess(c, c.plan.order, s.phase, s'.phase, t);
  }

  /** With a width of at least one every batch gets a task. */
  lemma PopTakesSome(c: Config, s: State)
    requires c.policy.maxParallelWorkers >= 1 && Bookkeeping(s) && LoopOk(c, s) && Enabled(c, s, Pop)
    ensures s.running == [] && Slots(c, s) > 0
  {
    assert forall t :: t in s.running ==> t in s.phase && Is(InRunning, s.phase[t]);
    NoMembers(s.running);
    assert Elems(s.running) == {};
  }

  lemma QueuedInPhase(s: State)
    requires Queued(s)
    ensures forall t :: t in s.queue ==> t in s.phase
  {
  }

  lemma IdleToPopped(c: Config)
    ensures Left(c, Popped) < Left(c, Idle)
  {
  }

  lemma StepLeavesLess(c: Config, s: State, a: Action)
    requires c.Valid() && Inv(c, s) && Enabled(c, s, a)
    ensures Remaining(c, Apply(c, s, a)) < Remaining(c, s)
  {
    hide Bookkeeping, Queued, TasksOk, LoopOk, Ordered, NewlyReady, Unlocked, Attempt, Entries, Sum, File, Without;
    match a
    case Pop => PopLeavesLess(c, s);
    case Stop =>
    case JoinAll =>
    case Start(t) => MoveLeavesLess(c, s, Apply(c, s, a), t);
    case Dispatch(t) => MoveLeavesLess(c, s, Apply(c, s, a), t);
    case Settle(t) =>
      FlightGoesOn(c, s, t);
      AttemptCounts(c.world, t, s.phase[t].entries, s.phase[t].l);
      MoveLeavesLess(c, s, Apply(c, s, a), t);
    case Leave(t) => MoveLeavesLess(c, s, Apply(c, s, a), t);
    case Record(t) => MoveLeavesLess(c, s, Apply(c, s, a), t);
    case Unlock(t) => MoveLeavesLess(c, s, Apply(c, s, a), t);
  }

  lemma FlightGoesOn(c: Config, s: State, t: Id)
    requires Inv(c, s) && t in s.phase && s.phase[t].InFlight?
    ensures s.phase[t].l.attempt < c.Budget()
  {
    hide Bookkeeping, Queued, TasksOk, LoopOk, Ordered;
    Knows(c, s, t);
  }

  /** No run is longer than the plan, the retry budget and the loop allow. */
  lemma {:induction false} RunsAreBounded(c: Config, actions: seq<Action>, s: State)
    requires c.Valid() && Run(c, actions, s)
    ensures |actions| + Remaining(c, s) <= 3 * |c.plan.order| * (2 * c.Budget() + 6) + 1
  {
    hide Apply, Enabled, Inv, Remaining;
    if actions == [] {
      InitRemaining(c);
    } else {
      var last := |actions| - 1;
      var before :| Run(c, actions[..last], before) && Enabled(c, before, actions[last]) &&
        s == Apply(c, before, actions[last]);
      RunsAreBounded(c, actions[..last], before);
      RunKeepsInv(c, actions[..last], before);
      StepLeavesLess(c, before, actions[last]);
    }
  }

  lemma InitRemaining(c: Config)
    ensures Remaining(c, Init(c.plan)) <= 3 * |c.plan.order| * (2 * c.Budget() + 6) + 1
  {
    SumAtMost(c, c.plan.order, Init(c.plan).phase);
    assert 3 * (|c.plan.order| * (2 * c.Budget() + 6)) == 3 * |c.plan.order| * (2 * c.Budget() + 6);
  }

  /** A run that has not ended can always take another step: the loop never waits for nothing. */
  lemma NeverStuck(c: Config, actions: seq<Action>, s: State)
    requires c.Valid() && Run(c, actions, s) && !s.loop.Over?
    ensures exists a :: Enabled(c, s, a)
  {
    hide Run, Bookkeeping, Queued, TasksOk, Ordered, LoopOk, NoDup, Disjoint;
    RunKeepsInv(c, actions, s);
    BookkeepingAlways(c, actions, s);
    if s.loop.Head? {
      assert Enabled(c, s, if Stopping(c, s) then Stop else Pop);
    } else {
      BatchMoves(c, s);
    }
  }

  lemma BatchMoves(c: Config, s: State)
    requires LoopOk(c, s) && s.loop.Batch? && s.phase.Keys == c.plan.deps.Keys
    ensures exists a :: Enabled(c, s, a)
  {
    if t :| t in s.loop.tasks && !s.phase[t].Finished? {
      BodyMoves(c, s, t);
    } else {
      assert Enabled(c, s, JoinAll);
    }
  }

  lemma BodyMoves(c: Config, s: State, t: Id)
    requires t in s.phase && t in c.plan.deps && !s.phase[t].Idle? && !s.phase[t].Finished?
    ensures exists a :: Enabled(c, s, a)
  {
    match s.phase[t]
    case Popped => assert Enabled(c, s, Start(t));
    case Looping(l) => assert Enabled(c, s, if GoesOn(c, l) then Dispatch(t) else Leave(t));
    case InFlight(_, _) => assert Enabled(c, s, Settle(t));
    case Leaving(_) => assert Enabled(c, s, Record(t));
    case Notifying(_) => assert Enabled(c, s, Unlock(t));
  }

  // ---------------------------------------------------------------- why a width is needed

  ghost predicate RunsEnd(c: Config, bound: nat) {
    forall actions, s :: Run(c, actions, s) ==> |actions| <= bound
  }

  ghost predicate SomethingRunnable(c: Config) {
    exists t :: t in c.plan.deps && c.plan.deps[t] == []
  }

  /**
    Where the assumption on maxParallelWorkers comes from: the runs of a plan are bounded if and only
    if the width is at least one or nothing is runnable to begin with; otherwise the loop goes round
    with empty batches for ever.
  */
  lemma RunsEndIffWidth(c: Config)
    requires NoDup(c.plan.order) && c.plan.deps.Keys == Elems(c.plan.order)
    ensures (exists bound :: RunsEnd(c, bound)) <==> c.policy.maxParallelWorkers >= 1 || !SomethingRunnable(c)
  {
    hide Run;
    if c.policy.maxParallelWorkers >= 1 {
      var bound := 3 * |c.plan.order| * (2 * c.Budget() + 6) + 1;
      forall actions, s | Run(c, actions, s)
        ensures |actions| <= bound
      {
        RunsAreBounded(c, actions, s);
      }
      assert RunsEnd(c, bound);
    } else if !SomethingRunnable(c) {
      forall actions, s | Run(c, actions, s)
        ensures |actions| <= 1
      {
        NothingToDo(c, actions, s);
      }
      assert RunsEnd(c, 1);
    } else {
      forall bound: nat
        ensures !RunsEnd(c, bound)
      {
        EmptyRounds(c, bound + 1);
      }
    }
  }

  lemma InitialQueue(c: Config)
    requires NoDup(c.plan.order) && c.plan.deps.Keys == Elems(c.plan.order)
    ensures Init(c.plan).queue != [] <==> SomethingRunnable(c)
    ensures SomethingRunnable(c) ==> |c.plan.order| > 0
  {
    var s := Init(c.plan);
    RootsFacts(c.plan, c.plan.order);
    assert forall t :: t in c.plan.order <==> t in Elems(c.plan.order);
    assert forall t :: t in s.queue <==> t in c.plan.deps && c.plan.deps[t] == [];
    if s.queue != [] {
      assert s.queue[0] in s.queue;
    }
  }

  ghost function Round(n: nat): seq<Action> {
    if n == 0 then [] else Round(n - 1) + [Pop] + [JoinAll]
  }

  /** n rounds with empty batches lead back to where they started. */
  lemma {:induction false} EmptyRounds(c: Config, n: nat)
    requires NoDup(c.plan.order) && c.plan.deps.Keys == Elems(c.plan.order)
    requires c.policy.maxParallelWorkers < 1 && SomethingRunnable(c)
    ensures |Round(n)| == 2 * n && Run(c, Round(n), Init(c.plan))
  {
    if n > 0 {
      EmptyRounds(c, n - 1);
      InitialQueue(c);
      var s := Init(c.plan);
      var popped := Apply(c, s, Pop);
      assert popped == s.(loop := Batch([]));
      assert Apply(c, popped, JoinAll) == s;
      hide Apply, Enabled;
      RunLonger(c, Round(n - 1), s, Pop);
      RunLonger(c, Round(n - 1) + [Pop], popped, JoinAll);
    }
  }

  lemma RunLonger(c: Config, actions: seq<Action>, s: State, a: Action)
    requires Run(c, actions, s) && Enabled(c, s, a)
    ensures Run(c, actions + [a], Apply(c, s, a))
  {
    hide Apply, Enabled;
    assert (actions + [a])[..|actions|] == actions;
  }

  lemma {:induction false} NothingToDo(c: Config, actions: seq<Action>, s: State)
    requires NoDup(c.plan.order) && c.plan.deps.Keys == Elems(c.plan.order)
    requires !SomethingRunnable(c) && Run(c, actions, s)
    ensures |actions| <= 1 && s == if actions == [] then Init(c.plan) else Init(c.plan).(loop := Over)
  {
    if actions != [] {
      var last := |actions| - 1;
      var before :| Run(c, actions[..last], before) && Enabled(c, before, actions[last]) &&
        s == Apply(c, before, actions[last]);
      hide Run, Apply, Enabled;
      NothingToDo(c, actions[..last], before);
      OnlyStop(c, before, actions[last]);
    }
  }

  lemma OnlyStop(c: Config, s: State, a: Action)
    requires NoDup(c.plan.order) && c.plan.deps.Keys == Elems(c.plan.order) && !SomethingRunnable(c)
    requires (s == Init(c.plan) || s == Init(c.plan).(loop := Over)) && Enabled(c, s, a)
    ensures s == Init(c.plan) && Apply(c, s, a) == s.(loop := Over)
  {
    InitialQueue(c);
    assert forall t :: t in s.phase ==> s.phase[t].Idle?;
    hide Roots, NoDup, Elems, SomethingRunnable, NewlyReady, Unlocked, Entries, Without, File;
  }

  // ---------------------------------------------------------------- how often a task is tried

  ghost function Count(actions: seq<Action>, a: Action): nat {
    if actions == [] then 0
    else Count(actions[..|actions| - 1], a) + if actions[|actions| - 1] == a then 1 else 0
  }

  ghost function Tried(p: Phase): nat {
    match p
    case Idle => 0
    case Popped => 0
    case InFlight(l, _) => l.attempt + 1
    case Looping(l) => l.attempt
    case Leaving(l) => l.attempt
    case Notifying(l) => l.attempt
    case Finished(l) => l.attempt
  }

  lemma StepCounts(c: Config, s: State, a: Action, t: Id)
    requires c.Valid() && Inv(c, s) && Enabled(c, s, a) && t in s.phase
    ensures var s' := Apply(c, s, a);
      && t in s'.phase
      && Tried(s'.phase[t]) == Tried(s.phase[t]) + (if a == Dispatch(t) then 1 else 0)
      && (Is(InPending, s'.phase[t]) <==> Is(InPending, s.phase[t]) && a != Start(t))
      && (a == Start(t) ==> Is(InPending, s.phase[t]))
  {
    hide Bookkeeping, TasksOk, Ordered, LoopOk, Queued, NewlyReady, Unlocked, Attempt, Entries, File, Without;
    if a.Pop? {
      PopPhases(c, s, Apply(c, s, a));
    } else if a.Settle? {
      AttemptCounts(c.world, a.t, s.phase[a.t].entries, s.phase[a.t].l);
    }
  }

  lemma AttemptCounts(w: World, t: Id, entries: map<Id, Entry>, l: Locals)
    ensures Attempt(w, t, entries, l).attempt == l.attempt + 1
  {
  }

  /**
    In every run each task's body is started at most once, and it is
    dispatched as often as its attempt counter says: at most maxTaskRetries + 1 times.
  */
  lemma {:induction false} TriesAreBounded(c: Config, actions: seq<Action>, s: State, t: Id)
    requires c.Valid() && Run(c, actions, s) && t in c.plan.deps
    ensures t in s.phase && Count(actions, Dispatch(t)) == Tried(s.phase[t]) <= c.Budget()
    ensures Count(actions, Start(t)) == if Is(InPending, s.phase[t]) then 0 else 1
  {
    hide Apply, Enabled;
    RunKeepsInv(c, actions, s);
    hide Inv;
    TriedWithinBudget(c, s, t);
    if actions != [] {
      var last := |actions| - 1;
      var before :| Run(c, actions[..last], before) && Enabled(c, before, actions[last]) &&
        s == Apply(c, before, actions[last]);
      RunKeepsInv(c, actions[..last], before);
      TriesAreBounded(c, actions[..last], before, t);
      StepCounts(c, before, actions[last], t);
    }
  }

  lemma TriedWithinBudget(c: Config, s: State, t: Id)
    requires Inv(c, s) && t in c.plan.deps
    ensures t in s.phase && Tried(s.phase[t]) <= c.Budget()
  {
    hide Bookkeeping, Queued, TasksOk, LoopOk, Ordered, Held, Ready, Entries;
    Knows(c, s, t);
    FinishFacts(c, t, Entries(c.plan.deps[t], s.reports), FRESH);
    hide Finish;
  }

  // ---------------------------------------------------------------- how often a task is queued and popped

  /** A run with the states it passes through. */
  ghost predicate Trace(c: Config, actions: seq<Action>, states: seq<State>) {
    && |states| == |actions| + 1 && states[0] == Init(c.plan)
    && forall i :: 0 <= i < |actions| ==>
      Enabled(c, states[i], actions[i]) && states[i + 1] == Apply(c, states[i], actions[i])
  }

  /** How often a step appends t to the ready queue. */
  ghost function QueuedBy(c: Config, s: State, a: Action, t: Id): nat {
    if a.Unlock? then multiset(NewlyReady(c.plan, c.plan.order, s.status, s.queue, s.completedSet))[t] else 0
  }

  /** How often a step pops t from the ready queue. */
  ghost function PoppedBy(c: Config, s: State, a: Action, t: Id): nat {
    if a.Pop? then multiset(s.queue[..Slots(c, s)])[t] else 0
  }

  /** How often t was queued: by initializeFromPlan and then by the first n steps. */
  ghost function Queuings(c: Config, actions: seq<Action>, states: seq<State>, t: Id, n: nat): nat
    requires n <= |actions| < |states|
  {
    if n == 0 then multiset(Init(c.plan).queue)[t]
    else Queuings(c, actions, states, t, n - 1) + QueuedBy(c, states[n - 1], actions[n - 1], t)
  }

  ghost function Poppings(c: Config, actions: seq<Action>, states: seq<State>, t: Id, n: nat): nat
    requires n <= |actions| < |states|
  {
    if n == 0 then 0 else Poppings(c, actions, states, t, n - 1) + PoppedBy(c, states[n - 1], actions[n - 1], t)
  }

  lemma {:induction false} TraceRuns(c: Config, actions: seq<Action>, states: seq<State>, n: nat)
    requires Trace(c, actions, states) && n <= |actions|
    ensures Run(c, actions[..n], states[n])
  {
    hide Apply, Enabled, Init;
    if n > 0 {
      TraceRuns(c, actions, states, n - 1);
      assert actions[..n] == actions[..n - 1] + [actions[n - 1]];
      RunLonger(c, actions[..n - 1], states[n - 1], actions[n - 1]);
    }
  }

  /** Every run has its trace. */
  lemma {:induction false} RunHasTrace(c: Config, actions: seq<Action>, s: State) returns (states: seq<State>)
    requires Run(c, actions, s)
    ensures Trace(c, actions, states) && states[|actions|] == s
  {
    hide Apply, Enabled, Init;
    if actions == [] {
      states := [s];
    } else {
      var last := |actions| - 1;
      var before :| Run(c, actions[..last], before) && Enabled(c, before, actions[last]) &&
        s == Apply(c, before, actions[last]);
      var earlier := RunHasTrace(c, actions[..last], before);
      states := earlier + [s];
    }
  }

  lemma OccursOnce(list: seq<Id>, t: Id)
    requires NoDup(list)
    ensures multiset(list)[t] == if t in list then 1 else 0
  {
    if t in list {
      var i :| 0 <= i < |list| && list[i] == t;
      assert list == list[..i] + [t] + list[i + 1..];
      assert t !in list[..i] && t !in list[i + 1..];
    }
  }

  /** A task has been queued once it is in the queue or its body has begun; it has been popped in the latter case. */
  ghost function WasQueued(s: State, t: Id): nat
    requires t in s.phase
  {
    if t in s.queue || !s.phase[t].Idle? then 1 else 0
  }

  ghost function WasPopped(s: State, t: Id): nat
    requires t in s.phase
  {
    if s.phase[t].Idle? then 0 else 1
  }

  lemma StepQueues(c: Config, s: State, a: Action, t: Id)
    requires c.Valid() && Inv(c, s) && Enabled(c, s, a) && t in s.phase
    ensures var s' := Apply(c, s, a);
      && t in s'.phase
      && WasQueued(s', t) == WasQueued(s, t) + QueuedBy(c, s, a, t)
      && WasPopped(s', t) == WasPopped(s, t) + PoppedBy(c, s, a, t)
  {
    hide Bookkeeping, TasksOk, LoopOk, Ordered, NewlyReady, Entries, File, Without, Slots;
    match a
    case Pop => PopQueues(c, s, t);
    case Unlock(u) => UnlockQueues(c, s, u, t);
    case Stop =>
    case JoinAll =>
    case Start(_) =>
    case Dispatch(_) =>
    case Settle(_) =>
    case Leave(_) =>
    case Record(_) =>
  }

  lemma PopQueues(c: Config, s: State, t: Id)
    requires c.Valid() && Inv(c, s) && Enabled(c, s, Pop) && t in s.phase
    ensures var s' := Apply(c, s, Pop);
      && t in s'.phase
      && WasQueued(s', t) == WasQueued(s, t)
      && WasPopped(s', t) == WasPopped(s, t) + PoppedBy(c, s, Pop, t)
  {
    hide Bookkeeping, TasksOk, Ordered;
    PopPhases(c, s, Apply(c, s, Pop));
    var batch := s.queue[..Slots(c, s)];
    OccursOnce(batch, t);
    hide LoopOk, Slots;
    assert t in batch ==> t in s.queue;
    assert t in s.queue ==> t in batch || t in s.queue[|batch|..];
  }

  lemma UnlockQueues(c: Config, s: State, u: Id, t: Id)
    requires c.Valid() && Inv(c, s) && Enabled(c, s, Unlock(u)) && t in s.phase
    ensures var s' := Apply(c, s, Unlock(u));
      && t in s'.phase
      && WasQueued(s', t) == WasQueued(s, t) + QueuedBy(c, s, Unlock(u), t)
      && WasPopped(s', t) == WasPopped(s, t)
  {
    hide Bookkeeping, Ordered, LoopOk, Held, Ready, Entries, NewlyReady;
    NewlyReadyFacts(c.plan, c.plan.order, s.status, s.queue, s.completedSet);
    var ready := NewlyReady(c.plan, c.plan.order, s.status, s.queue, s.completedSet);
    OccursOnce(ready, t);
    Knows(c, s, t);
    assert t in ready ==> s.phase[t].Idle? && t !in s.queue;
  }

  /**
    In every run each task enters the ready queue at most once and is popped at most once, namely
    when its body begins; and it is popped only after it was queued.
  */
  lemma {:induction false} QueuedAndPoppedOnce(c: Config, actions: seq<Action>, states: seq<State>, t: Id, n: nat)
    requires c.Valid() && Trace(c, actions, states) && t in c.plan.deps && n <= |actions|
    ensures t in states[n].phase
    ensures Queuings(c, actions, states, t, n) == WasQueued(states[n], t)
    ensures Poppings(c, actions, states, t, n) == WasPopped(states[n], t) <= Queuings(c, actions, states, t, n) <= 1
  {
    if n == 0 {
      RootsFacts(c.plan, c.plan.order);
      OccursOnce(Init(c.plan).queue, t);
    } else {
      hide Apply, Enabled, QueuedBy, PoppedBy, WasQueued, WasPopped;
      QueuedAndPoppedOnce(c, actions, states, t, n - 1);
      TraceRuns(c, actions, states, n - 1);
      RunKeepsInv(c, actions[..n - 1], states[n - 1]);
      hide Inv, Trace, Run;
      StepQueues(c, states[n - 1], actions[n - 1], t);
      AtMostOne(states[n], t);
    }
  }

  /** What the counts of a whole run are, over a trace that ends in its state. */
  ghost predicate OnceOnly(c: Config, actions: seq<Action>, states: seq<State>, t: Id) {
    && |states| == |actions| + 1
    && Poppings(c, actions, states, t, |actions|) <= Queuings(c, actions, states, t, |actions|) <= 1
  }

  /** Every run, told with the states it passes through, queues and pops each task of the plan at most once. */
  lemma RunQueuesAndPopsOnce(c: Config, actions: seq<Action>, s: State)
    requires c.Valid() && Run(c, actions, s)
    ensures exists states ::
      && Trace(c, actions, states) && states[|actions|] == s
      && forall t :: t in c.plan.deps ==> OnceOnly(c, actions, states, t)
  {
    var states := RunHasTrace(c, actions, s);
    hide Run, WasQueued, WasPopped;
    forall t | t in c.plan.deps
      ensures OnceOnly(c, actions, states, t)
    {
      QueuedAndPoppedOnce(c, actions, states, t, |actions|);
    }
  }

  lemma AtMostOne(s: State, t: Id)
    requires t in s.phase
    ensures WasPopped(s, t) <= WasQueued(s, t) <= 1
  {
  }
}
