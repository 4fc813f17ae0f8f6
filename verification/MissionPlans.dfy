/** The mission loop against the task graph of its plan: what a cycle or a missing dependency does to a mission. */
module MissionPlans {
  import opened Common
  import opened Missions
  import opened MissionSafety
  import opened MissionTheorems
  import opened MissionTermination
  import Graph = TaskGraphs

  /** The graph was built from the tasks of the plan by addTask. */
  ghost predicate GraphOf(plan: Plan, tasks: map<Id, Graph.Task>, adj: Graph.Edges) {
    && tasks.Keys == plan.deps.Keys && Graph.Mirrors(tasks, adj)
    && forall t :: t in plan.deps ==> tasks[t].dependsOnTaskIds == plan.deps[t]
  }

  lemma PredsAreDeps(plan: Plan, tasks: map<Id, Graph.Task>, adj: Graph.Edges)
    requires GraphOf(plan, tasks, adj)
    ensures forall t :: t in plan.deps ==> Graph.Preds(adj, t) == Elems(plan.deps[t])
    ensures Graph.EdgesInto(adj, plan.deps.Keys)
  {
    forall d, t | d in adj && t in adj[d]
      ensures t in plan.deps.Keys
    {
      assert d in Graph.Preds(adj, t);
    }
  }

  /** Completed tasks can all be processed by Kahn's algorithm, by the order of the completed list. */
  lemma {:induction false} CompletedAreGrounded(c: Config, s: State, adj: Graph.Edges, i: nat)
    requires Inv(c, s) && i <= |s.completed|
    requires forall t :: t in c.plan.deps ==> Graph.Preds(adj, t) == Elems(c.plan.deps[t])
    ensures Elems(s.completed[..i]) <= Graph.Grounded(adj, c.plan.deps.Keys)
  {
    hide Inv, Ready, Graph.Preds, Graph.Grounded;
    if i > 0 {
      var t, before := s.completed[i - 1], Elems(s.completed[..i - 1]);
      CompletedAreGrounded(c, s, adj, i - 1);
      CompletedInOrder(c, s, i - 1);
      ReadyIsSubset(c.plan.deps[t], before);
      Graph.GroundedIsLimit(adj, c.plan.deps.Keys, 0);
      assert s.completed[..i] == s.completed[..i - 1] + [t];
    }
  }

  // ---------------------------------------------------------------- the result, without a scheduler

  /** One naive round: every task whose dependencies are in m is tried on their reports, all at once. */
  ghost function NaiveRound(c: Config, m: Meaning): Meaning {
    map t | t in c.plan.deps && Ready(c.plan.deps[t], m.Keys) && Verdict(c, m, t).ok && Verdict(c, m, t).report.Some? ::
      Stored(Verdict(c, m, t).report.value, Verdict(c, m, t).verification)
  }

  ghost function Naive(c: Config, k: nat): Meaning {
    if k == 0 then map[] else NaiveRound(c, Naive(c, k - 1))
  }

  lemma RoundKeepsWithin(c: Config, m: Meaning, n: Meaning)
    requires Within(m, n)
    ensures Within(NaiveRound(c, m), NaiveRound(c, n))
  {
    hide Verdict;
    forall t | t in NaiveRound(c, m)
      ensures t in NaiveRound(c, n) && NaiveRound(c, n)[t] == NaiveRound(c, m)[t]
    {
      SameVerdict(c, m, n, m.Keys, t);
    }
  }

  lemma {:induction false} NaiveGrows(c: Config, j: nat, k: nat)
    requires j <= k
    ensures Within(Naive(c, j), Naive(c, k))
  {
    hide NaiveRound;
    if j > 0 {
      NaiveGrows(c, j - 1, k - 1);
      RoundKeepsWithin(c, Naive(c, j - 1), Naive(c, k - 1));
    }
  }

  lemma RoundOfFixpoint(c: Config, m: Meaning)
    requires Fixpoint(c, m)
    ensures Within(NaiveRound(c, m), m)
  {
    hide Verdict;
    forall t | t in NaiveRound(c, m)
      ensures t in m && m[t] == NaiveRound(c, m)[t]
    {
      assert Earned(c, m, t);
    }
  }

  lemma {:induction false} NaiveStaysWithin(c: Config, m: Meaning, k: nat)
    requires Fixpoint(c, m)
    ensures Within(Naive(c, k), m)
  {
    hide NaiveRound, Fixpoint;
    if k > 0 {
      NaiveStaysWithin(c, m, k - 1);
      RoundKeepsWithin(c, Naive(c, k - 1), m);
      RoundOfFixpoint(c, m);
    }
  }

  /** The tasks in done are in m with the reports they have filed. */
  ghost predicate Reported(done: set<Id>, reports: Meaning, m: Meaning) {
    forall t :: t in done ==> t in reports && t in m && m[t] == reports[t]
  }

  /** The i-th task to complete does so in naive round i at the latest, with the same report. */
  lemma {:induction false} CompletedByRound(c: Config, s: State, i: nat)
    requires Inv(c, s) && i <= |s.completed|
    ensures Reported(Elems(s.completed[..i]), s.reports, Naive(c, i))
  {
    hide Inv, NaiveRound, Ready, Verdict, Filed, Within, Reported, Elems;
    if i == 0 {
      NothingReported(s.reports, Naive(c, 0));
      assert s.completed[..0] == [];
    } else {
      var t, m, before := s.completed[i - 1], Naive(c, i - 1), Elems(s.completed[..i - 1]);
      CompletedByRound(c, s, i - 1);
      NaiveGrows(c, i - 1, i);
      CompletedInOrder(c, s, i - 1);
      CompletedVerdict(c, s, t);
      CompletesInRound(c, s.reports, m, before, t);
      OneMoreElem(s.completed, i - 1);
      assert Elems(s.completed[..i]) == before + {t};
      assert Naive(c, i) == NaiveRound(c, m);
    }
  }

  lemma NothingReported(reports: Meaning, m: Meaning)
    ensures Reported(Elems([]), reports, m)
  {
  }

  lemma OneMoreElem(list: seq<Id>, i: nat)
    requires i < |list|
    ensures Elems(list[..i + 1]) == Elems(list[..i]) + {list[i]}
  {
  }

  lemma CompletedVerdict(c: Config, s: State, t: Id)
    requires Inv(c, s) && t in s.completedSet && t in c.plan.deps
    ensures var v := Verdict(c, s.reports, t); v.ok && v.report.Some? && Filed(s.reports, t, v)
  {
    CompletedIsFiled(c, s, t);
    hide Inv, Outcome, Entries;
  }

  lemma CompletesInRound(c: Config, reports: Meaning, m: Meaning, before: set<Id>, t: Id)
    requires t in c.plan.deps && Ready(c.plan.deps[t], before) && Reported(before, reports, m)
    requires Verdict(c, reports, t).ok && Verdict(c, reports, t).report.Some? &&
      Filed(reports, t, Verdict(c, reports, t))
    requires Within(m, NaiveRound(c, m))
    ensures Reported(before + {t}, reports, NaiveRound(c, m))
  {
    SameVerdict(c, reports, m, before, t);
    hide Verdict;
  }

  /**
    The result of every finished run is that of |plan| naive rounds: no queue, no width, no
    interleaving, only the plan and the outcomes.
  */
  lemma ResultIsNaive(c: Config, actions: seq<Action>, s: State)
    requires c.Valid() && Run(c, actions, s) && s.loop.Over?
    ensures Achieved(s) == Naive(c, |c.plan.order|)
  {
    hide Run, Inv, Achieved, Fixpoint, Closed, Verdict, Naive, NaiveRound, Ready;
    var m, n := Achieved(s), |c.plan.order|;
    LeastFixpoint(c, actions, s);
    NaiveStaysWithin(c, m, n);
    RunKeepsInv(c, actions, s);
    AchievedFacts(c, s);
    CompletedByRound(c, s, |s.completed|);
    assert s.completed[..|s.completed|] == s.completed;
    CompletedAtMost(c, actions, s);
    NaiveGrows(c, |s.completed|, n);
    ReportedIsWithin(s, m, Naive(c, |s.completed|), Naive(c, n));
    SameMeaning(m, Naive(c, n));
  }

  lemma ReportedIsWithin(s: State, m: Meaning, n: Meaning, n': Meaning)
    requires m.Keys == s.completedSet == Elems(s.completed) && AgreeOn(s.completedSet, s.reports, m)
    requires Reported(Elems(s.completed), s.reports, n) && Within(n, n')
    ensures Within(m, n')
  {
  }

  lemma CompletedAtMost(c: Config, actions: seq<Action>, s: State)
    requires c.Valid() && Run(c, actions, s)
    ensures |s.completed| <= |c.plan.order|
  {
    BookkeepingAlways(c, actions, s);
    NoDupSize(s.completed);
    NoDupSize(c.plan.order);
    SubsetSize(Elems(s.completed), Elems(c.plan.order));
  }

  lemma SameMeaning(m: Meaning, n: Meaning)
    requires Within(m, n) && Within(n, m)
    ensures m == n
  {
    assert m.Keys == n.Keys;
  }

  // ---------------------------------------------------------------- success against the graph

  /** Every task whose dependencies are in m passes when handed their reports. */
  ghost predicate AllPass(c: Config, m: Meaning) {
    forall t :: t in c.plan.deps && Ready(c.plan.deps[t], m.Keys) ==> Verdict(c, m, t).ok
  }

  /** Where every verdict passes, everything Kahn's algorithm can process completes. */
  lemma GroundedAreCompleted(c: Config, m: Meaning, adj: Graph.Edges)
    requires Fixpoint(c, m) && AllPass(c, m)
    requires forall t :: t in c.plan.deps ==> Graph.Preds(adj, t) == Elems(c.plan.deps[t])
    ensures Graph.Grounded(adj, c.plan.deps.Keys) <= m.Keys
  {
    hide Verdict, Filed;
    forall t | t in c.plan.deps && Graph.Preds(adj, t) <= m.Keys
      ensures t in m.Keys
    {
      assert forall d :: d in c.plan.deps[t] ==> d in Graph.Preds(adj, t);
      assert Earned(c, m, t);
    }
    Graph.GroundedIsLeast(adj, c.plan.deps.Keys, |c.plan.deps.Keys|, m.Keys);
  }

  /**
    A mission succeeds if and only if the graph of its plan is one detectCycle should accept, that is
    closed and without a cycle, and every task passes when handed its dependencies' reports, all of
    which the plan and the outcomes decide.
  */
  lemma SucceedsIffSound(c: Config, actions: seq<Action>, s: State, tasks: map<Id, Graph.Task>, adj: Graph.Edges)
    requires c.Valid() && Run(c, actions, s) && s.loop.Over? && GraphOf(c.plan, tasks, adj)
    ensures |s.completed| == |c.plan.order| <==> Graph.Sound(adj, tasks.Keys) && AllPass(c, Naive(c, |c.plan.order|))
  {
    hide Run, Inv, Achieved, Fixpoint, Closed, Verdict, GraphOf, Within, Naive, Ready, AllPass;
    ResultIsNaive(c, actions, s);
    var m, nodes := Achieved(s), c.plan.deps.Keys;
    assert tasks.Keys == nodes by {
      GraphKeys(c.plan, tasks, adj);
    }
    LeastFixpoint(c, actions, s);
    SuccessIffAllCompleted(c, actions, s);
    PredsAreDeps(c.plan, tasks, adj);
    Graph.GroundedIffClosedAndAcyclic(adj, nodes);
    Graph.GroundedIsLimit(adj, nodes, 0);
    RunKeepsInv(c, actions, s);
    CompletedAreGrounded(c, s, adj, |s.completed|);
    assert s.completed[..|s.completed|] == s.completed;
    hide Graph.Preds, Graph.Grounded, Graph.Settled, Graph.Closed, Graph.Acyclic, Graph.EdgesInto;
    if AllPass(c, m) {
      GroundedAreCompleted(c, m, adj);
    }
    if m.Keys == nodes {
      FixpointPasses(c, m);
    }
  }

  lemma GraphKeys(plan: Plan, tasks: map<Id, Graph.Task>, adj: Graph.Edges)
    requires GraphOf(plan, tasks, adj)
    ensures tasks.Keys == plan.deps.Keys
  {
  }

  lemma FixpointPasses(c: Config, m: Meaning)
    requires Fixpoint(c, m) && m.Keys == c.plan.deps.Keys
    ensures AllPass(c, m)
  {
    hide Verdict;
    forall t | t in c.plan.deps
      ensures Verdict(c, m, t).ok
    {
      assert t in m && Earned(c, m, t);
    }
  }

  /** Tasks on a cycle, behind one, or behind a missing dependency are never started, whatever the outcomes. */
  lemma UngroundedStayPending(c: Config, actions: seq<Action>, s: State, tasks: map<Id, Graph.Task>, adj: Graph.Edges,
                              t: Id)
    requires c.Valid() && Run(c, actions, s) && s.loop.Over? && GraphOf(c.plan, tasks, adj)
    requires t in c.plan.deps && t !in Graph.Grounded(adj, c.plan.deps.Keys)
    ensures t in s.pending
  {
    hide Run, Inv, Achieved, Fixpoint, Closed, Verdict, Within, GraphOf, Ready, Graph.Preds, Graph.Grounded,
      Graph.EdgesInto;
    LeastFixpoint(c, actions, s);
    PredsAreDeps(c.plan, tasks, adj);
    RunKeepsInv(c, actions, s);
    CompletedAreGrounded(c, s, adj, |s.completed|);
    assert s.completed[..|s.completed|] == s.completed;
    UngroundedWaits(c, adj, Achieved(s).Keys, t);
  }

  lemma UngroundedWaits(c: Config, adj: Graph.Edges, done: set<Id>, t: Id)
    requires t in c.plan.deps && Graph.Preds(adj, t) == Elems(c.plan.deps[t])
    requires done <= Graph.Grounded(adj, c.plan.deps.Keys) && t !in Graph.Grounded(adj, c.plan.deps.Keys)
    ensures !Ready(c.plan.deps[t], done)
  {
    ReadyIsSubset(c.plan.deps[t], done);
    Graph.GroundedIsLimit(adj, c.plan.deps.Keys, 0);
    hide Graph.Preds, Graph.Grounded, Ready;
  }

  lemma ReadyIsSubset(deps: seq<Id>, done: set<Id>)
    ensures Ready(deps, done) <==> Elems(deps) <= done
  {
    assert forall d :: d in deps <==> d in Elems(deps);
  }

  // ---------------------------------------------------------------- the loop's rounds against the batches

  /** The tasks whose bodies have been popped. */
  ghost function Begun(s: State): set<Id> {
    set t | t in s.phase && !s.phase[t].Idle?
  }

  lemma StepBegins(c: Config, s: State, a: Action)
    requires c.Valid() && Inv(c, s) && Enabled(c, s, a)
    ensures Begun(Apply(c, s, a)) == Begun(s) + if a.Pop? then Elems(s.queue[..Slots(c, s)]) else {}
  {
    hide Bookkeeping, TasksOk, Ordered, LoopOk, Queued, NewlyReady, Unlocked, Attempt, Entries, File, Without;
    if a.Pop? {
      PopPhases(c, s, Apply(c, s, a));
      QueuedInPhase(s);
      assert forall t :: t in Apply(c, s, a).loop.tasks ==> t in s.queue;
    }
  }

  lemma FailedOnlyGrows(c: Config, s: State, a: Action)
    requires Enabled(c, s, a)
    ensures Apply(c, s, a).failed == [] ==> s.failed == []
  {
    hide NewlyReady, Unlocked, Attempt, Entries, File, Without, Slots;
  }

  /** At a loop head without failures, what has begun has completed and a task is queued once its dependencies have. */
  lemma HeadQueues(c: Config, s: State, t: Id)
    requires Inv(c, s) && s.loop.Head? && s.failed == [] && t in c.plan.deps
    ensures t in s.queue <==> t !in Begun(s) && Elems(c.plan.deps[t]) <= Begun(s)
  {
    hide Lists, TaskOk, NoDup;
    HeadCompleted(c, s);
    Knows(c, s, t);
    hide Inv, Queued, LoopOk, Entries, Finish;
    QueuedAre(s, t);
    ReadyIsSubset(c.plan.deps[t], s.completedSet);
    if s.phase[t].Idle? {
      IdleAwaits(c, s, t);
    }
  }

  lemma QueuedAre(s: State, t: Id)
    requires Queued(s)
    ensures t in s.queue <==> t in s.phase && s.phase[t].Idle? && s.status[t] == READY
  {
  }

  lemma HeadCompleted(c: Config, s: State)
    requires Bookkeeping(s) && LoopOk(c, s) && s.loop.Head? && s.failed == []
    ensures s.completedSet == Begun(s)
    ensures forall d :: d in Begun(s) ==> Passed(s.phase, d)
  {
    forall t | t in s.phase
      ensures t in s.completedSet <==> t in Begun(s)
      ensures t in Begun(s) ==> Passed(s.phase, t)
    {
      assert t !in s.failed;
    }
  }

  lemma IdleAwaits(c: Config, s: State, t: Id)
    requires t in c.plan.deps && t in s.phase && t in s.status && TaskOk(c, s, t) && s.phase[t].Idle?
    requires forall d :: d in s.completedSet ==> Passed(s.phase, d)
    requires s.completedSet == Begun(s)
    ensures s.status[t] == READY <==> Ready(c.plan.deps[t], s.completedSet)
  {
    hide Entries, Finish;
  }

  /** With room for the whole plan a batch takes everything that is queued. */
  lemma FullBatch(c: Config, s: State)
    requires c.Valid() && Inv(c, s) && Enabled(c, s, Pop) && c.policy.maxParallelWorkers >= |c.plan.order|
    ensures s.queue[..Slots(c, s)] == s.queue && s.queue != []
  {
    PopTakesSome(c, s);
    hide Bookkeeping, TasksOk, LoopOk, Ordered;
    NoDupSize(s.queue);
    NoDupSize(c.plan.order);
    SubsetSize(Elems(s.queue), Elems(c.plan.order));
  }

  lemma HeadQueueIsLayer(c: Config, s: State, adj: Graph.Edges, k: nat)
    requires Inv(c, s) && s.loop.Head? && s.failed == []
    requires forall t :: t in c.plan.deps ==> Graph.Preds(adj, t) == Elems(c.plan.deps[t])
    requires Begun(s) == Graph.Settled(adj, c.plan.deps.Keys, k)
    ensures Elems(s.queue) == Graph.Layer(adj, c.plan.deps.Keys, k)
  {
    Graph.LayerIsFree(adj, c.plan.deps.Keys, k);
    forall t | t in s.queue
      ensures t in c.plan.deps
    {
      QueuedAre(s, t);
    }
    hide Inv, Graph.Settled, Graph.Layer, Graph.Preds;
    forall t
      ensures t in Elems(s.queue) <==> t in Graph.Free(adj, c.plan.deps.Keys, Begun(s))
    {
      if t in c.plan.deps {
        HeadQueues(c, s, t);
      }
    }
  }

  lemma PopIsLayer(c: Config, s: State, adj: Graph.Edges, k: nat)
    requires c.Valid() && Inv(c, s) && s.failed == [] && Enabled(c, s, Pop) &&
      c.policy.maxParallelWorkers >= |c.plan.order|
    requires forall t :: t in c.plan.deps ==> Graph.Preds(adj, t) == Elems(c.plan.deps[t])
    requires Begun(s) == Graph.Settled(adj, c.plan.deps.Keys, k)
    ensures s.queue != [] && Elems(s.queue[..Slots(c, s)]) == Graph.Layer(adj, c.plan.deps.Keys, k)
  {
    FullBatch(c, s);
    hide Inv, Slots, Begun, Graph.Settled, Graph.Layer, Graph.Preds;
    HeadQueueIsLayer(c, s, adj, k);
  }

  /**
    With room for the whole plan, and as long as nothing fails, the loop runs the plan layer by layer
    whatever the interleaving: after k pops exactly the first k layers have been started.
  */
  lemma {:induction false} PopsStartLayers(c: Config, actions: seq<Action>, s: State, adj: Graph.Edges)
    requires c.Valid() && Run(c, actions, s) && s.failed == [] && c.policy.maxParallelWorkers >= |c.plan.order|
    requires forall t :: t in c.plan.deps ==> Graph.Preds(adj, t) == Elems(c.plan.deps[t])
    ensures Begun(s) == Graph.Settled(adj, c.plan.deps.Keys, Count(actions, Pop))
  {
    hide Inv, Apply, Enabled, Begun, Slots, Init, Graph.Settled, Graph.Layer, Graph.Preds;
    if actions == [] {
      NothingBegun(c);
      Graph.LayersStart(adj, c.plan.deps.Keys);
    } else {
      var last := |actions| - 1;
      var before :| Run(c, actions[..last], before) && Enabled(c, before, actions[last]) &&
        s == Apply(c, before, actions[last]);
      hide Run;
      FailedOnlyGrows(c, before, actions[last]);
      PopsStartLayers(c, actions[..last], before, adj);
      RunKeepsInv(c, actions[..last], before);
      StepStartsLayer(c, before, actions[last], adj, Count(actions[..last], Pop));
    }
  }

  lemma StepStartsLayer(c: Config, s: State, a: Action, adj: Graph.Edges, k: nat)
    requires c.Valid() && Inv(c, s) && s.failed == [] && Enabled(c, s, a) &&
      c.policy.maxParallelWorkers >= |c.plan.order|
    requires forall t :: t in c.plan.deps ==> Graph.Preds(adj, t) == Elems(c.plan.deps[t])
    requires Begun(s) == Graph.Settled(adj, c.plan.deps.Keys, k)
    ensures Begun(Apply(c, s, a)) == Graph.Settled(adj, c.plan.deps.Keys, if a == Pop then k + 1 else k)
  {
    StepBegins(c, s, a);
    Graph.LayerIsFree(adj, c.plan.deps.Keys, k);
    hide Inv, Apply, Enabled, Begun, Graph.Settled, Graph.Layer, Graph.Preds;
    if a == Pop {
      PopIsLayer(c, s, adj, k);
    }
  }

  lemma NothingBegun(c: Config)
    ensures Begun(Init(c.plan)) == {}
  {
  }

  /** The planner's batches are the loop's rounds: the k-th pop starts exactly batch k. */
  lemma PopsTakeBatches(c: Config, actions: seq<Action>, s: State, tasks: map<Id, Graph.Task>, adj: Graph.Edges,
                        batches: seq<seq<Id>>)
    requires c.Valid() && Run(c, actions, s) && s.failed == [] && c.policy.maxParallelWorkers >= |c.plan.order|
    requires GraphOf(c.plan, tasks, adj) && Graph.ExactBatches(adj, tasks.Keys, batches) && Enabled(c, s, Pop)
    ensures var k := Count(actions, Pop); k < |batches| && Elems(s.queue[..Slots(c, s)]) == Elems(batches[k])
  {
    var k := Count(actions, Pop);
    PredsAreDeps(c.plan, tasks, adj);
    GraphKeys(c.plan, tasks, adj);
    PopsStartLayers(c, actions, s, adj);
    RunKeepsInv(c, actions, s);
    FullBatch(c, s);
    hide Run, Inv, Enabled, GraphOf, Slots, Begun, Graph.ExactBatches, Graph.Layer, Graph.Settled;
    PopIsLayer(c, s, adj, k);
    NoMembers(s.queue);
    if k < |batches| {
      Graph.ExactBatchIsLayer(adj, tasks.Keys, batches, k);
    } else {
      Graph.NothingAfterLastBatch(adj, tasks.Keys, batches, k);
    }
  }
}
