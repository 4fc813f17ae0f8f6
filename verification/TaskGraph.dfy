/**
  Kahn's algorithm over an incrementally built dependency graph (task_graph.ts).

  A JavaScript Map or Set is iterated in insertion order.  Here every such loop picks the
  remaining keys in an arbitrary order, so what is proved holds for insertion order too.
*/
module TaskGraphs {
  import opened Common

  datatype Status = BACKLOG | READY | IN_PROGRESS | REVIEW | COMPLETED | FAILED | BLOCKED

  datatype Task = Task(id: Id, dependsOnTaskIds: seq<Id>, status: Status)

  /** adjacencyList: an id to the ids that depend on it. */
  type Edges = map<Id, set<Id>>

  ghost function Preds(adj: Edges, t: Id): set<Id> {
    set d | d in adj && t in adj[d]
  }

  ghost predicate EdgesInto(adj: Edges, nodes: set<Id>) {
    forall d :: d in adj ==> adj[d] <= nodes
  }

  /** The in-degree index counts, for each indexed id, the ids with an edge to it. */
  ghost predicate Indexed(adj: Edges, inDegree: map<Id, int>) {
    && EdgesInto(adj, inDegree.Keys)
    && (forall t :: t in inDegree ==> inDegree[t] == |Preds(adj, t)|)
  }

  // ---------------------------------------------------------------- paths and cycles

  ghost predicate IsPath(adj: Edges, p: seq<Id>) {
    forall i :: 0 < i < |p| ==> p[i - 1] in Preds(adj, p[i])
  }

  ghost predicate IsCycle(adj: Edges, p: seq<Id>) {
    |p| >= 2 && IsPath(adj, p) && p[0] == p[|p| - 1]
  }

  ghost predicate Acyclic(adj: Edges) {
    forall p :: !IsCycle(adj, p)
  }

  /** Every dependency of a node is itself a node. */
  ghost predicate Closed(adj: Edges, nodes: set<Id>) {
    forall t :: t in nodes ==> Preds(adj, t) <= nodes
  }

  // ---------------------------------------------------------------- layers

  /** The ids that are free of dependencies after k rounds of settling everything that is free. */
  ghost function Settled(adj: Edges, nodes: set<Id>, k: nat): set<Id> {
    if k == 0 then {} else set t | t in nodes && Preds(adj, t) <= Settled(adj, nodes, k - 1)
  }

  ghost function Layer(adj: Edges, nodes: set<Id>, k: nat): set<Id> {
    Settled(adj, nodes, k + 1) - Settled(adj, nodes, k)
  }

  /** The ids Kahn's algorithm can ever process. */
  ghost function Grounded(adj: Edges, nodes: set<Id>): set<Id> {
    Settled(adj, nodes, |nodes|)
  }

  lemma {:induction false} SettledGrows(adj: Edges, nodes: set<Id>, k: nat)
    ensures Settled(adj, nodes, k) <= Settled(adj, nodes, k + 1) <= nodes
  {
    if k > 0 {
      SettledGrows(adj, nodes, k - 1);
    }
  }

  lemma {:induction false} SettledMonotone(adj: Edges, nodes: set<Id>, j: nat, k: nat)
    requires j <= k
    ensures Settled(adj, nodes, j) <= Settled(adj, nodes, k) <= nodes
    decreases k - j
  {
    SettledGrows(adj, nodes, j);
    if j < k {
      SettledMonotone(adj, nodes, j + 1, k);
    }
  }

  lemma EmptyLayer(adj: Edges, nodes: set<Id>, k: nat)
    requires Layer(adj, nodes, k) == {}
    ensures Settled(adj, nodes, k + 1) == Settled(adj, nodes, k)
  {
    SettledGrows(adj, nodes, k);
    assert Settled(adj, nodes, k + 1) == Settled(adj, nodes, k) + Layer(adj, nodes, k);
  }

  /** An empty layer ends the layering. */
  lemma {:induction false} StallIsFinal(adj: Edges, nodes: set<Id>, k: nat, m: nat)
    requires Layer(adj, nodes, k) == {} && k <= m
    ensures Settled(adj, nodes, m) == Settled(adj, nodes, k)
    decreases m - k
  {
    SettledGrows(adj, nodes, k);
    if k < m {
      EmptyLayer(adj, nodes, k);
      assert Settled(adj, nodes, k + 2) == Settled(adj, nodes, k + 1);
      StallIsFinal(adj, nodes, k + 1, m);
    }
  }

  /** Until it stalls, the layering settles at least one id a round. */
  lemma {:induction false} SettlesOneARound(adj: Edges, nodes: set<Id>, k: nat)
    ensures |Settled(adj, nodes, k)| >= k || Layer(adj, nodes, k) == {}
  {
    if k > 0 {
      SettlesOneARound(adj, nodes, k - 1);
      SettledGrows(adj, nodes, k - 1);
      if Layer(adj, nodes, k - 1) == {} {
        StallIsFinal(adj, nodes, k - 1, k);
        StallIsFinal(adj, nodes, k - 1, k + 1);
      } else {
        SubsetSize(Settled(adj, nodes, k - 1), Settled(adj, nodes, k));
      }
    }
  }

  /** Grounded is the limit of the layers, and the least set closed under settling. */
  lemma GroundedIsLimit(adj: Edges, nodes: set<Id>, k: nat)
    ensures Settled(adj, nodes, k) <= Grounded(adj, nodes) <= nodes
    ensures forall t :: t in nodes && Preds(adj, t) <= Grounded(adj, nodes) ==> t in Grounded(adj, nodes)
    ensures Layer(adj, nodes, k) == {} ==> Settled(adj, nodes, k) == Grounded(adj, nodes)
  {
    var n := |nodes|;
    SettlesOneARound(adj, nodes, n);
    SettledGrows(adj, nodes, n);
    if Layer(adj, nodes, n) != {} {
      SubsetSize(Settled(adj, nodes, n), nodes);
    }
    StallIsFinal(adj, nodes, n, n + 1);
    if k <= n {
      SettledMonotone(adj, nodes, k, n);
      if Layer(adj, nodes, k) == {} {
        StallIsFinal(adj, nodes, k, n);
      }
    } else {
      StallIsFinal(adj, nodes, n, k);
    }
  }

  /** Leaving out the ids that are never processed changes no layer. */
  lemma {:induction false} GroundedSettlesAlike(adj: Edges, nodes: set<Id>, k: nat)
    ensures Settled(adj, Grounded(adj, nodes), k) == Settled(adj, nodes, k)
  {
    GroundedIsLimit(adj, nodes, k);
    if k > 0 {
      GroundedSettlesAlike(adj, nodes, k - 1);
      SettledGrows(adj, nodes, k - 1);
      hide Grounded;
    }
  }

  /** Induction principle for Grounded: it lies inside every set closed under settling. */
  lemma {:induction false} GroundedIsLeast(adj: Edges, nodes: set<Id>, k: nat, p: set<Id>)
    requires forall t :: t in nodes && Preds(adj, t) <= p ==> t in p
    ensures Settled(adj, nodes, k) <= p
  {
    if k > 0 {
      GroundedIsLeast(adj, nodes, k - 1, p);
    }
  }

  // ---------------------------------------------------------------- layers against cycles

  /** No id on a cycle is ever settled: going one edge back round the cycle leads one layer down. */
  lemma {:induction false} CycleNeverSettles(adj: Edges, nodes: set<Id>, p: seq<Id>, k: nat)
    requires IsCycle(adj, p)
    ensures p[0] !in Settled(adj, nodes, k)
    decreases k
  {
    if k > 0 {
      var n := |p|;
      var q := [p[n - 2]] + p[..n - 1];
      assert IsCycle(adj, q);
      CycleNeverSettles(adj, nodes, q, k - 1);
    }
  }

  /** Where every member of u has a predecessor in u, arbitrarily long paths stay inside u. */
  lemma {:induction false} WalkBack(adj: Edges, u: set<Id>, n: nat) returns (p: seq<Id>)
    requires u != {} && forall t :: t in u ==> Preds(adj, t) * u != {}
    ensures |p| == n + 1 && IsPath(adj, p) && Elems(p) <= u
  {
    if n == 0 {
      var t :| t in u;
      p := [t];
    } else {
      var q := WalkBack(adj, u, n - 1);
      assert q[0] in Elems(q);
      var d :| d in Preds(adj, q[0]) * u;
      p := [d] + q;
    }
  }

  lemma CycleInside(adj: Edges, u: set<Id>) returns (p: seq<Id>)
    requires u != {} && forall t :: t in u ==> Preds(adj, t) * u != {}
    ensures IsCycle(adj, p)
  {
    var q := WalkBack(adj, u, |u|);
    Pigeonhole(q, u);
    var i, j :| 0 <= i < j < |q| && q[i] == q[j];
    p := q[i..j + 1];
  }

  /**
    Kahn's criterion: everything can be processed exactly when every dependency is a node and
    the edges have no cycle.
  */
  lemma GroundedIffClosedAndAcyclic(adj: Edges, nodes: set<Id>)
    requires EdgesInto(adj, nodes)
    ensures Grounded(adj, nodes) == nodes <==> Closed(adj, nodes) && Acyclic(adj)
  {
    var g := Grounded(adj, nodes);
    GroundedIsLimit(adj, nodes, |nodes|);
    if g == nodes {
      SettledMonotone(adj, nodes, |nodes|, |nodes| + 1);
      forall t | t in nodes
        ensures Preds(adj, t) <= nodes
      {
        if |nodes| > 0 {
          SettledMonotone(adj, nodes, |nodes| - 1, |nodes|);
        }
      }
      forall p
        ensures !IsCycle(adj, p)
      {
        if IsCycle(adj, p) {
          assert p[|p| - 2] in Preds(adj, p[|p| - 1]);
          CycleNeverSettles(adj, nodes, p, |nodes|);
        }
      }
    } else if Closed(adj, nodes) {
      var u := nodes - g;
      forall t | t in u
        ensures Preds(adj, t) * u != {}
      {
        var d :| d in Preds(adj, t) && d !in g;
        assert d in Preds(adj, t) * u;
      }
      var p := CycleInside(adj, u);
    }
  }

  // ---------------------------------------------------------------- execution batches

  ghost predicate InBatches(batches: seq<seq<Id>>, lo: nat, hi: nat, t: Id)
    requires lo <= hi <= |batches|
  {
    exists k :: lo <= k < hi && t in batches[k]
  }

  /**
    What the batches mean, without the algorithm: non-empty batches that list each task exactly
    once, where a task's dependencies all sit in earlier batches and, past the first batch, one of
    them sits in the batch just before.  So a task's batch number is one plus the largest batch
    number among its dependencies, and one if it has none.
  */
  ghost predicate ExactBatches(adj: Edges, nodes: set<Id>, batches: seq<seq<Id>>) {
    && (forall k :: 0 <= k < |batches| ==> NoDup(batches[k]) && batches[k] != [])
    && (forall j, k, t :: 0 <= j < k < |batches| && t in batches[j] ==> t !in batches[k])
    && (forall t :: t in nodes <==> InBatches(batches, 0, |batches|, t))
    && (forall k, t :: 0 <= k < |batches| && t in batches[k] ==> WellPlaced(adj, batches, k, t))
  }

  ghost predicate WellPlaced(adj: Edges, batches: seq<seq<Id>>, k: nat, t: Id)
    requires k < |batches|
  {
    && (forall d :: d in Preds(adj, t) ==> InBatches(batches, 0, k, d))
    && (k > 0 ==> exists d :: d in Preds(adj, t) && d in batches[k - 1])
  }

  /** A layering numbers every task so that a dependency has a smaller number. */
  ghost predicate IsLayering(adj: Edges, nodes: set<Id>, number: map<Id, int>, count: int) {
    forall t :: t in nodes ==> Numbered(adj, number, count, t)
  }

  ghost predicate Numbered(adj: Edges, number: map<Id, int>, count: int, t: Id) {
    && t in number && 1 <= number[t] <= count
    && (forall d :: d in Preds(adj, t) ==> d in number && number[d] < number[t])
  }

  lemma BatchFacts(adj: Edges, nodes: set<Id>, batches: seq<seq<Id>>, k: nat, t: Id)
    requires ExactBatches(adj, nodes, batches) && k < |batches| && t in batches[k]
    ensures t in nodes && WellPlaced(adj, batches, k, t)
  {
    assert InBatches(batches, 0, |batches|, t);
  }

  lemma {:induction false} BatchNumberIsLowest(adj: Edges, nodes: set<Id>, batches: seq<seq<Id>>,
                                               number: map<Id, int>, count: int, k: nat, t: Id)
    requires ExactBatches(adj, nodes, batches) && IsLayering(adj, nodes, number, count)
    requires k < |batches| && t in batches[k]
    ensures t in nodes && Numbered(adj, number, count, t) && number[t] >= k + 1
  {
    hide ExactBatches, InBatches, Preds;
    BatchFacts(adj, nodes, batches, k, t);
    if k > 0 {
      var d :| d in Preds(adj, t) && d in batches[k - 1];
      BatchNumberIsLowest(adj, nodes, batches, number, count, k - 1, d);
    }
  }

  /** No dependency-respecting layering has fewer layers than there are batches. */
  lemma BatchesAreFewest(adj: Edges, nodes: set<Id>, batches: seq<seq<Id>>, number: map<Id, int>, count: int)
    requires ExactBatches(adj, nodes, batches) && IsLayering(adj, nodes, number, count)
    ensures batches != [] ==> |batches| <= count
  {
    if batches != [] {
      var k := |batches| - 1;
      BatchNumberIsLowest(adj, nodes, batches, number, count, k, batches[k][0]);
    }
  }

  ghost predicate ListsLayers(adj: Edges, nodes: set<Id>, batches: seq<seq<Id>>) {
    forall k :: 0 <= k < |batches| ==>
      NoDup(batches[k]) && batches[k] != [] && Elems(batches[k]) == Layer(adj, nodes, k)
  }

  /** Batches that list the layers are exact. */
  lemma LayersAreExact(adj: Edges, nodes: set<Id>, batches: seq<seq<Id>>)
    requires ListsLayers(adj, nodes, batches)
    requires Settled(adj, nodes, |batches|) == nodes
    ensures ExactBatches(adj, nodes, batches)
  {
    forall j, k, t | 0 <= j < k < |batches| && t in batches[j]
      ensures t !in batches[k]
    {
      assert t in Elems(batches[j]);
      SettledMonotone(adj, nodes, j + 1, k);
      assert t !in Elems(batches[k]);
    }
    forall k: nat, t | k <= |batches|
      ensures t in Settled(adj, nodes, k) <==> InBatches(batches, 0, k, t)
    {
      SettledAreBatches(adj, nodes, batches, k, t);
    }
    forall k, t | 0 <= k < |batches| && t in batches[k]
      ensures WellPlaced(adj, batches, k, t)
    {
      assert t in Elems(batches[k]);
      assert forall d :: d in Preds(adj, t) ==> d in Settled(adj, nodes, k);
      if k > 0 {
        var d :| d in Preds(adj, t) && d !in Settled(adj, nodes, k - 1);
        assert d in Elems(batches[k - 1]);
      }
    }
  }

  /** Listing every layer up to the first empty one batches exactly the ids that can be processed. */
  lemma AllLayersAreExact(adj: Edges, nodes: set<Id>, batches: seq<seq<Id>>)
    requires ListsLayers(adj, nodes, batches) && Layer(adj, nodes, |batches|) == {}
    ensures ExactBatches(adj, Grounded(adj, nodes), batches)
  {
    var g := Grounded(adj, nodes);
    GroundedIsLimit(adj, nodes, |batches|);
    GroundedSettlesAlike(adj, nodes, |batches|);
    forall k | 0 <= k < |batches|
      ensures Layer(adj, g, k) == Layer(adj, nodes, k)
    {
      GroundedSettlesAlike(adj, nodes, k);
      GroundedSettlesAlike(adj, nodes, k + 1);
    }
    hide Settled, Grounded, Layer, ExactBatches;
    LayersAreExact(adj, g, batches);
  }

  /** Batches are exact for one set of ids only. */
  lemma ExactForOneSet(adj: Edges, nodes: set<Id>, others: set<Id>, batches: seq<seq<Id>>)
    requires ExactBatches(adj, nodes, batches)
    ensures ExactBatches(adj, others, batches) <==> others == nodes
  {
    if ExactBatches(adj, others, batches) {
      forall t
        ensures t in others <==> t in nodes
      {
        assert t in nodes <==> InBatches(batches, 0, |batches|, t);
        assert t in others <==> InBatches(batches, 0, |batches|, t);
      }
    }
  }

  lemma {:induction false} SettledAreBatches(adj: Edges, nodes: set<Id>, batches: seq<seq<Id>>, k: nat, t: Id)
    requires k <= |batches|
    requires forall j :: 0 <= j < |batches| ==> Elems(batches[j]) == Layer(adj, nodes, j)
    ensures t in Settled(adj, nodes, k) <==> InBatches(batches, 0, k, t)
  {
    if k > 0 {
      SettledAreBatches(adj, nodes, batches, k - 1, t);
      SettledGrows(adj, nodes, k - 1);
      assert t in batches[k - 1] <==> t in Elems(batches[k - 1]);
    }
  }

  // ---------------------------------------------------------------- the naive rescan

  ghost predicate DepsCompleted(tasks: map<Id, Task>, t: Task) {
    forall d :: d in t.dependsOnTaskIds ==> d in tasks && tasks[d].status == COMPLETED
  }

  ghost predicate Eligible(tasks: map<Id, Task>, id: Id) {
    id in tasks && (tasks[id].status == BACKLOG || tasks[id].status == READY) && DepsCompleted(tasks, tasks[id])
  }

  ghost function ReadySet(tasks: map<Id, Task>): set<Id> {
    set id | id in tasks && Eligible(tasks, id)
  }

  /** The task table with the given ids moved to one status. */
  ghost function WithStatus(tasks: map<Id, Task>, ids: set<Id>, status: Status): map<Id, Task> {
    map id | id in tasks :: if id in ids then tasks[id].(status := status) else tasks[id]
  }

  /** Asking again before anything completes returns the same tasks, and changes nothing more. */
  lemma AskingAgain(tasks: map<Id, Task>)
    ensures var marked := WithStatus(tasks, ReadySet(tasks), READY);
      ReadySet(marked) == ReadySet(tasks) && WithStatus(marked, ReadySet(marked), READY) == marked
  {
    var marked := WithStatus(tasks, ReadySet(tasks), READY);
    forall t | t in tasks
      ensures DepsCompleted(marked, marked[t]) <==> DepsCompleted(tasks, tasks[t])
    {
      assert forall d :: d in tasks ==> (marked[d].status == COMPLETED <==> tasks[d].status == COMPLETED);
    }
  }

  /** Only completed dependencies make a task ready; a task that has moved on is not offered again. */
  lemma NotOffered(tasks: map<Id, Task>, t: Id, d: Id)
    requires t in tasks
    ensures tasks[t].status in {IN_PROGRESS, REVIEW, COMPLETED, FAILED, BLOCKED} ==> t !in ReadySet(tasks)
    ensures d in tasks[t].dependsOnTaskIds && !(d in tasks && tasks[d].status == COMPLETED) ==> t !in ReadySet(tasks)
  {
  }

  /** One round of a client of getReadyTasks: ask, then complete everything it returned. */
  ghost function Round(tasks: map<Id, Task>): map<Id, Task> {
    WithStatus(WithStatus(tasks, ReadySet(tasks), READY), ReadySet(tasks), COMPLETED)
  }

  ghost function Rounds(tasks: map<Id, Task>, k: nat): map<Id, Task> {
    if k == 0 then tasks else Round(Rounds(tasks, k - 1))
  }

  /** The edges are exactly the listed dependencies: each id added once, none added on the side. */
  ghost predicate Mirrors(tasks: map<Id, Task>, adj: Edges) {
    forall t :: Preds(adj, t) == if t in tasks then Elems(tasks[t].dependsOnTaskIds) else {}
  }

  /** Nothing has run yet. */
  ghost predicate FreshPlan(tasks: map<Id, Task>, adj: Edges) {
    Mirrors(tasks, adj) && forall t :: t in tasks ==> tasks[t].status == BACKLOG
  }

  /** The plan after the tasks in done have completed and nothing else has moved. */
  ghost function Progress(tasks: map<Id, Task>, done: set<Id>): map<Id, Task> {
    map t | t in tasks :: tasks[t].(status := if t in done then COMPLETED else BACKLOG)
  }

  /** The ids waiting for nothing but the ids in done. */
  ghost function Free(adj: Edges, nodes: set<Id>, done: set<Id>): set<Id> {
    set t | t in nodes && t !in done && Preds(adj, t) <= done
  }

  lemma LayerIsFree(adj: Edges, nodes: set<Id>, k: nat)
    ensures Layer(adj, nodes, k) == Free(adj, nodes, Settled(adj, nodes, k))
    ensures Settled(adj, nodes, k + 1) == Settled(adj, nodes, k) + Layer(adj, nodes, k)
    ensures Settled(adj, nodes, k) <= nodes && Settled(adj, nodes, k) !! Layer(adj, nodes, k)
  {
    SettledGrows(adj, nodes, k);
  }

  lemma RoundStep(tasks: map<Id, Task>, adj: Edges, done: set<Id>)
    requires FreshPlan(tasks, adj) && done <= tasks.Keys
    ensures ReadySet(Progress(tasks, done)) == Free(adj, tasks.Keys, done)
    ensures Round(Progress(tasks, done)) == Progress(tasks, done + Free(adj, tasks.Keys, done))
  {
    hide Eligible, Free, Mirrors, Preds;
    var now, free := Progress(tasks, done), Free(adj, tasks.Keys, done);
    FreeAreTasks(adj, tasks.Keys, done);
    forall t | t in tasks
      ensures Eligible(now, t) <==> t in free
    {
      EligibleIsFree(tasks, adj, done, t);
    }
    assert ReadySet(now) == free;
    assert WithStatus(WithStatus(now, free, READY), free, COMPLETED) == Progress(tasks, done + free);
  }

  lemma FreeAreTasks(adj: Edges, nodes: set<Id>, done: set<Id>)
    ensures Free(adj, nodes, done) <= nodes
  {
  }

  lemma EligibleIsFree(tasks: map<Id, Task>, adj: Edges, done: set<Id>, t: Id)
    requires FreshPlan(tasks, adj) && t in tasks && done <= tasks.Keys
    ensures Eligible(Progress(tasks, done), t) <==> t in Free(adj, tasks.Keys, done)
  {
    var deps := tasks[t].dependsOnTaskIds;
    assert Preds(adj, t) == Elems(deps);
    hide Preds, Mirrors;
    assert forall d :: d in deps <==> d in Elems(deps);
  }

  lemma {:induction false} RoundsCompleteLayers(tasks: map<Id, Task>, adj: Edges, k: nat)
    requires FreshPlan(tasks, adj)
    ensures Rounds(tasks, k) == Progress(tasks, Settled(adj, tasks.Keys, k))
    ensures ReadySet(Rounds(tasks, k)) == Layer(adj, tasks.Keys, k)
  {
    hide Mirrors, Preds, Round, ReadySet;
    if k == 0 {
      assert Progress(tasks, {}) == tasks;
    } else {
      RoundsCompleteLayers(tasks, adj, k - 1);
      LayerIsFree(adj, tasks.Keys, k - 1);
      RoundStep(tasks, adj, Settled(adj, tasks.Keys, k - 1));
    }
    LayerIsFree(adj, tasks.Keys, k);
    RoundStep(tasks, adj, Settled(adj, tasks.Keys, k));
  }

  /**
    The fast layering refines the naive rescan: in round k the rescan returns exactly batch k; while
    tasks remain it never returns nothing, and after the last batch every task has completed.
  */
  lemma RescanYieldsBatches(tasks: map<Id, Task>, adj: Edges, batches: seq<seq<Id>>, k: nat)
    requires FreshPlan(tasks, adj) && ExactBatches(adj, tasks.Keys, batches)
    ensures ReadySet(Rounds(tasks, k)) == if k < |batches| then Elems(batches[k]) else {}
    ensures k < |batches| <==> ReadySet(Rounds(tasks, k)) != {}
    ensures k >= |batches| ==> Rounds(tasks, k) == Progress(tasks, tasks.Keys)
  {
    RoundsCompleteLayers(tasks, adj, k);
    if k < |batches| {
      ExactBatchIsLayer(adj, tasks.Keys, batches, k);
    } else {
      NothingAfterLastBatch(adj, tasks.Keys, batches, k);
    }
    hide Mirrors, Preds, Settled, Rounds, ExactBatches, Layer, ReadySet;
  }

  lemma NothingAfterLastBatch(adj: Edges, nodes: set<Id>, batches: seq<seq<Id>>, k: nat)
    requires ExactBatches(adj, nodes, batches) && k >= |batches|
    ensures Settled(adj, nodes, k) == nodes && Layer(adj, nodes, k) == {}
  {
    ExactBatchesAreLayers(adj, nodes, batches, |batches|);
    SettledMonotone(adj, nodes, |batches|, k);
    SettledMonotone(adj, nodes, k, k + 1);
  }

  lemma ExactBatchIsLayer(adj: Edges, nodes: set<Id>, batches: seq<seq<Id>>, k: nat)
    requires ExactBatches(adj, nodes, batches) && k < |batches|
    ensures Elems(batches[k]) == Layer(adj, nodes, k) && Elems(batches[k]) != {}
  {
    assert batches[k][0] in Elems(batches[k]);
    ExactBatchesAreLayers(adj, nodes, batches, k);
    ExactBatchesAreLayers(adj, nodes, batches, k + 1);
    forall t
      ensures t in Elems(batches[k]) <==> t in Layer(adj, nodes, k)
    {
      assert InBatches(batches, 0, k + 1, t) <==> InBatches(batches, 0, k, t) || t in batches[k];
    }
  }

  /** The specification of batches has one solution up to order inside a batch: the layers. */
  lemma {:induction false} ExactBatchesAreLayers(adj: Edges, nodes: set<Id>, batches: seq<seq<Id>>, k: nat)
    requires ExactBatches(adj, nodes, batches) && k <= |batches|
    ensures forall t :: t in Settled(adj, nodes, k) <==> InBatches(batches, 0, k, t)
    ensures k == |batches| ==> Settled(adj, nodes, k) == nodes
  {
    SettledMonotone(adj, nodes, k, k);
    if k > 0 {
      ExactBatchesAreLayers(adj, nodes, batches, k - 1);
      forall t
        ensures t in Settled(adj, nodes, k) <==> InBatches(batches, 0, k, t)
      {
        if t in nodes {
          NumberOf(adj, nodes, batches, k, t);
        }
        assert InBatches(batches, 0, k, t) ==> InBatches(batches, 0, |batches|, t);
      }
    }
  }

  /** A node sits in the first k batches exactly when its dependencies sit in the first k - 1. */
  lemma NumberOf(adj: Edges, nodes: set<Id>, batches: seq<seq<Id>>, k: nat, t: Id)
    requires ExactBatches(adj, nodes, batches) && 0 < k <= |batches| && t in nodes
    ensures InBatches(batches, 0, k, t) <==> forall d :: d in Preds(adj, t) ==> InBatches(batches, 0, k - 1, d)
  {
    assert InBatches(batches, 0, |batches|, t);
    var j :| 0 <= j < |batches| && t in batches[j];
    assert WellPlaced(adj, batches, j, t);
    if j < k {
      assert forall d :: InBatches(batches, 0, j, d) ==> InBatches(batches, 0, k - 1, d);
    } else {
      var d :| d in Preds(adj, t) && d in batches[j - 1];
      assert !InBatches(batches, 0, k - 1, d);
      assert !InBatches(batches, 0, k, t);
    }
  }

  // ---------------------------------------------------------------- the graph object

  /** tempInDegree: what is left of each in-degree once the ids in gone have been processed. */
  ghost predicate Residual(adj: Edges, gone: set<Id>, temp: map<Id, int>) {
    forall t :: t in temp ==> temp[t] == |Preds(adj, t) - gone|
  }

  /** The ids for which current was the last dependency still to be processed. */
  ghost function Freed(adj: Edges, nodes: set<Id>, gone: set<Id>, current: Id): set<Id> {
    set t | t in nodes && current in Preds(adj, t) && Preds(adj, t) <= gone + {current}
  }

  lemma ResidualStep(adj: Edges, gone: set<Id>, current: Id, t: Id)
    requires current !in gone
    ensures var after := Preds(adj, t) - (gone + {current});
      && |Preds(adj, t) - gone| == |after| + (if current in Preds(adj, t) then 1 else 0)
      && (|after| == 0 <==> Preds(adj, t) <= gone + {current})
  {
    var after := Preds(adj, t) - (gone + {current});
    if current in Preds(adj, t) {
      assert Preds(adj, t) - gone == after + {current};
    } else {
      assert Preds(adj, t) - gone == after;
    }
    assert |after| == 0 ==> after == {};
  }

  // What the graph's two updates do to the edges and to the index.

  function AddNode(adj: Edges, id: Id): Edges {
    if id in adj then adj else adj[id := {}]
  }

  function AddEdge(adj: Edges, t: Id, d: Id): Edges {
    adj[d := (if d in adj then adj[d] else {}) + {t}]
  }

  function AddEdges(adj: Edges, t: Id, deps: seq<Id>): Edges {
    if deps == [] then adj else AddEdge(AddEdges(adj, t, deps[..|deps| - 1]), t, deps[|deps| - 1])
  }

  lemma AddEdgePreds(adj: Edges, t: Id, d: Id, u: Id)
    ensures Preds(AddEdge(adj, t, d), u) == Preds(adj, u) + if u == t then {d} else {}
  {
  }

  /** After adding a task, its dependencies are the listed ones on top of any it had before. */
  lemma {:induction false} AddEdgesPreds(adj: Edges, t: Id, deps: seq<Id>, u: Id)
    ensures Preds(AddEdges(AddNode(adj, t), t, deps), u) == Preds(adj, u) + if u == t then Elems(deps) else {}
  {
    if deps == [] {
      assert Preds(AddNode(adj, t), u) == Preds(adj, u);
    } else {
      var last := |deps| - 1;
      AddEdgesPreds(adj, t, deps[..last], u);
      AddEdgePreds(AddEdges(AddNode(adj, t), t, deps[..last]), t, deps[last], u);
      assert Elems(deps) == Elems(deps[..last]) + {deps[last]};
    }
  }

  /** Adding tasks with new ids, and nothing else, keeps the edges equal to the listed dependencies. */
  lemma AddTaskKeepsMirror(tasks: map<Id, Task>, adj: Edges, task: Task)
    requires Mirrors(tasks, adj) && task.id !in tasks
    ensures Mirrors(tasks[task.id := task], AddEdges(AddNode(adj, task.id), task.id, task.dependsOnTaskIds))
  {
    forall u {
      AddEdgesPreds(adj, task.id, task.dependsOnTaskIds, u);
    }
  }

  lemma NoInEdges(adj: Edges, nodes: set<Id>, t: Id)
    requires EdgesInto(adj, nodes)
    ensures t !in nodes ==> Preds(adj, t) == {}
  {
  }

  lemma AddNodeCounts(adj: Edges, inDegree: map<Id, int>, id: Id)
    requires Indexed(adj, inDegree)
    ensures Indexed(AddNode(adj, id), if id in inDegree then inDegree else inDegree[id := 0])
  {
    assert forall t :: Preds(AddNode(adj, id), t) == Preds(adj, t);
    NoInEdges(adj, inDegree.Keys, id);
  }

  lemma AddEdgeCounts(adj: Edges, inDegree: map<Id, int>, t: Id, d: Id)
    requires Indexed(adj, inDegree)
    ensures d in adj && t in adj[d] ==> AddEdge(adj, t, d) == adj && t in inDegree
    ensures !(d in adj && t in adj[d]) ==>
            Indexed(AddEdge(adj, t, d), inDegree[t := (if t in inDegree then inDegree[t] else 0) + 1])
  {
    if d in adj && t in adj[d] {
      assert adj[d] + {t} == adj[d];
    } else {
      var now := inDegree[t := (if t in inDegree then inDegree[t] else 0) + 1];
      forall u | u in now
        ensures now[u] == |Preds(AddEdge(adj, t, d), u)|
      {
        AddEdgePreds(adj, t, d, u);
        NoInEdges(adj, inDegree.Keys, u);
        assert d !in Preds(adj, t);
        assert u != t ==> Preds(AddEdge(adj, t, d), u) == Preds(adj, u);
      }
    }
  }

  lemma NeighborResiduals(adj: Edges, temp: map<Id, int>, gone: set<Id>, current: Id, neighbors: set<Id>)
    requires Residual(adj, gone, temp) && current !in gone && neighbors <= temp.Keys
    requires neighbors == if current in adj then adj[current] else {}
    ensures Freed(adj, temp.Keys, gone, current) == set t | t in neighbors && temp[t] == 1
  {
    forall t | t in neighbors
      ensures temp[t] == 1 <==> Preds(adj, t) <= gone + {current}
    {
      ResidualStep(adj, gone, current, t);
    }
  }

  lemma ReleasedResiduals(adj: Edges, temp: map<Id, int>, next: map<Id, int>, gone: set<Id>, current: Id,
                          neighbors: set<Id>)
    requires Residual(adj, gone, temp) && current !in gone && next.Keys == temp.Keys
    requires neighbors == if current in adj then adj[current] else {}
    requires forall t :: t in next ==> next[t] == temp[t] - if t in neighbors then 1 else 0
    ensures Residual(adj, gone + {current}, next)
  {
    forall t | t in next
      ensures next[t] == |Preds(adj, t) - (gone + {current})|
    {
      ResidualStep(adj, gone, current, t);
    }
  }

  lemma ZeroMeansFree(adj: Edges, inDegree: map<Id, int>)
    requires Indexed(adj, inDegree)
    ensures Residual(adj, {}, inDegree)
    ensures Layer(adj, inDegree.Keys, 0) == set t | t in inDegree && inDegree[t] == 0
  {
    hide Preds;
    forall t | t in inDegree
      ensures inDegree[t] == |Preds(adj, t) - {}| && (inDegree[t] == 0 <==> Preds(adj, t) <= {})
    {
      NoneGone(adj, t);
    }
  }

  lemma NoneGone(adj: Edges, t: Id)
    ensures Preds(adj, t) - {} == Preds(adj, t) && (|Preds(adj, t)| == 0 <==> Preds(adj, t) <= {})
  {
  }

  /** What became free since start while gone grew. */
  ghost function NewlyFree(adj: Edges, nodes: set<Id>, start: set<Id>, gone: set<Id>): set<Id> {
    set t | t in nodes && Preds(adj, t) <= gone && !(Preds(adj, t) <= start)
  }

  lemma NewlyFreeStart(adj: Edges, nodes: set<Id>, start: set<Id>)
    ensures NewlyFree(adj, nodes, start, start) == {}
  {
  }

  lemma NewlyFreeStep(adj: Edges, nodes: set<Id>, start: set<Id>, gone: set<Id>, current: Id)
    requires start <= gone && current !in gone
    ensures NewlyFree(adj, nodes, start, gone + {current}) ==
            NewlyFree(adj, nodes, start, gone) + Freed(adj, nodes, gone, current)
    ensures NewlyFree(adj, nodes, start, gone) !! Freed(adj, nodes, gone, current)
  {
  }

  lemma NextLayer(adj: Edges, nodes: set<Id>, k: nat)
    ensures Layer(adj, nodes, k + 1) == NewlyFree(adj, nodes, Settled(adj, nodes, k), Settled(adj, nodes, k + 1))
  {
  }

  lemma LayerShrinksRest(adj: Edges, nodes: set<Id>, k: nat)
    requires Layer(adj, nodes, k) != {}
    ensures |nodes - Settled(adj, nodes, k + 1)| < |nodes - Settled(adj, nodes, k)|
  {
    SettledGrows(adj, nodes, k);
    var t :| t in Layer(adj, nodes, k);
    assert t in nodes - Settled(adj, nodes, k);
    SubsetSize(nodes - Settled(adj, nodes, k + 1), nodes - Settled(adj, nodes, k));
  }

  lemma ListOneMore(adj: Edges, nodes: set<Id>, batches: seq<seq<Id>>, batch: seq<Id>)
    requires ListsLayers(adj, nodes, batches)
    requires batch != [] && NoDup(batch) && Elems(batch) == Layer(adj, nodes, |batches|)
    ensures ListsLayers(adj, nodes, batches + [batch])
    ensures |nodes - Settled(adj, nodes, |batches| + 1)| < |nodes - Settled(adj, nodes, |batches|)|
  {
    assert batch[0] in Elems(batch);
    LayerShrinksRest(adj, nodes, |batches|);
  }

  /** detectCycle's loop: gone has been processed, queued is everything that is free but unprocessed. */
  ghost predicate Reached(adj: Edges, nodes: set<Id>, gone: set<Id>, queued: set<Id>) {
    && gone !! queued
    && (forall t :: FreeOf(adj, nodes, gone, t) <==> t in gone || t in queued)
    && gone <= Grounded(adj, nodes)
  }

  ghost predicate FreeOf(adj: Edges, nodes: set<Id>, gone: set<Id>, t: Id) {
    t in nodes && Preds(adj, t) <= gone
  }

  lemma FreedAre(adj: Edges, nodes: set<Id>, gone: set<Id>, current: Id, t: Id)
    requires current !in gone
    ensures t in Freed(adj, nodes, gone, current) <==>
      FreeOf(adj, nodes, gone + {current}, t) && !FreeOf(adj, nodes, gone, t)
    ensures FreeOf(adj, nodes, gone, t) ==> FreeOf(adj, nodes, gone + {current}, t)
  {
  }

  lemma LayersStart(adj: Edges, nodes: set<Id>)
    ensures Settled(adj, nodes, 0) == {} && ListsLayers(adj, nodes, [])
  {
  }

  lemma ReachedStart(adj: Edges, nodes: set<Id>)
    ensures Reached(adj, nodes, {}, Layer(adj, nodes, 0))
  {
  }

  lemma ReachedPick(adj: Edges, nodes: set<Id>, gone: set<Id>, queued: set<Id>, current: Id)
    requires Reached(adj, nodes, gone, queued) && current in queued
    ensures current in nodes && current !in gone && Preds(adj, current) <= gone
    ensures current in Grounded(adj, nodes)
    ensures |nodes - (gone + {current})| < |nodes - gone|
  {
    assert FreeOf(adj, nodes, gone, current);
    GroundedIsLimit(adj, nodes, 0);
    SubsetSize(nodes - (gone + {current}), nodes - gone);
    assert current in nodes - gone;
  }

  lemma ReachedStep(adj: Edges, nodes: set<Id>, gone: set<Id>, queued: set<Id>, current: Id)
    requires Reached(adj, nodes, gone, queued) && current in queued
    ensures Reached(adj, nodes, gone + {current}, queued - {current} + Freed(adj, nodes, gone, current))
    ensures queued - {current} !! Freed(adj, nodes, gone, current)
  {
    ReachedPick(adj, nodes, gone, queued, current);
    hide Grounded, Settled, Freed, FreeOf;
    forall t
      ensures FreeOf(adj, nodes, gone + {current}, t) <==>
              t in gone + {current} || t in queued - {current} + Freed(adj, nodes, gone, current)
      ensures t in Freed(adj, nodes, gone, current) ==> t !in gone && t !in queued
    {
      FreedAre(adj, nodes, gone, current, t);
    }
  }

  lemma ReachedEnd(adj: Edges, nodes: set<Id>, gone: set<Id>)
    requires Reached(adj, nodes, gone, {})
    ensures gone == Grounded(adj, nodes)
  {
    forall t | t in nodes && Preds(adj, t) <= gone
      ensures t in gone
    {
      assert FreeOf(adj, nodes, gone, t);
    }
    GroundedIsLeast(adj, nodes, |nodes|, gone);
  }

  // ---------------------------------------------------------------- edges to ids that were never added

  /** Every dependency of a task is a task and the accumulated edges have no cycle: what detectCycle is asked. */
  ghost predicate Sound(adj: Edges, tasks: set<Id>) {
    Closed(adj, tasks) && Acyclic(adj)
  }

  /** The answer detectCycle computes: as many ids processed as there are tasks. */
  ghost predicate Passes(adj: Edges, nodes: set<Id>, tasks: set<Id>) {
    |Grounded(adj, nodes)| == |tasks|
  }

  /** An id that was never added but waits for tasks only, so that it is processed as well. */
  ghost predicate FreeStray(adj: Edges, nodes: set<Id>, tasks: set<Id>) {
    exists x :: x in nodes - tasks && Preds(adj, x) <= tasks
  }

  /** The count comparison balances unprocessed tasks against processed ids that are not tasks. */
  lemma CountsBalance(adj: Edges, nodes: set<Id>, tasks: set<Id>)
    ensures Passes(adj, nodes, tasks) <==> |Grounded(adj, nodes) - tasks| == |tasks - Grounded(adj, nodes)|
  {
    var g := Grounded(adj, nodes);
    assert g == (g - tasks) + (g * tasks) && tasks == (tasks - g) + (g * tasks);
    hide Grounded;
  }

  lemma {:induction false} SettledSubgraph(adj: Edges, nodes: set<Id>, tasks: set<Id>, k: nat)
    requires tasks <= nodes
    ensures Settled(adj, tasks, k) <= Settled(adj, nodes, k)
  {
    if k > 0 {
      SettledSubgraph(adj, nodes, tasks, k - 1);
    }
  }

  /** In a sound graph all tasks are processed, with or without strays. */
  lemma SoundIsProcessed(adj: Edges, nodes: set<Id>, tasks: set<Id>)
    requires EdgesInto(adj, nodes) && tasks <= nodes && Sound(adj, tasks)
    ensures tasks <= Grounded(adj, nodes)
  {
    var own := Restricted(adj, tasks);
    RestrictedFacts(adj, tasks);
    GroundedIffClosedAndAcyclic(own, tasks);
    SettledRestricted(adj, tasks, |tasks|);
    SettledSubgraph(adj, nodes, tasks, |tasks|);
    GroundedIsLimit(adj, nodes, |tasks|);
  }

  /** The edges into the given ids only. */
  ghost function Restricted(adj: Edges, ids: set<Id>): Edges {
    map d | d in adj :: adj[d] * ids
  }

  lemma RestrictedFacts(adj: Edges, ids: set<Id>)
    requires Sound(adj, ids)
    ensures EdgesInto(Restricted(adj, ids), ids) && Sound(Restricted(adj, ids), ids)
    ensures forall t :: t in ids ==> Preds(Restricted(adj, ids), t) == Preds(adj, t)
  {
    forall p
      ensures !IsCycle(Restricted(adj, ids), p)
    {
      if IsCycle(Restricted(adj, ids), p) {
        assert IsCycle(adj, p);
      }
    }
  }

  lemma {:induction false} SettledRestricted(adj: Edges, ids: set<Id>, k: nat)
    requires forall t :: t in ids ==> Preds(Restricted(adj, ids), t) == Preds(adj, t)
    ensures Settled(Restricted(adj, ids), ids, k) == Settled(adj, ids, k)
  {
    if k > 0 {
      SettledRestricted(adj, ids, k - 1);
    }
  }

  /** In a sound graph some stray is processed exactly when one waits for tasks only. */
  lemma {:induction false} StrayProcessed(adj: Edges, nodes: set<Id>, tasks: set<Id>, k: nat)
    requires !FreeStray(adj, nodes, tasks)
    ensures Settled(adj, nodes, k) <= tasks
  {
    if k > 0 {
      StrayProcessed(adj, nodes, tasks, k - 1);
      forall t | t in Settled(adj, nodes, k)
        ensures t in tasks
      {
        assert t !in tasks ==> t in nodes - tasks && Preds(adj, t) <= tasks;
      }
    }
  }

  /**
    When detectCycle is right.  On a sound graph it is right exactly if every id that was never added
    waits for another such id; on an unsound one it is right exactly if the unprocessed tasks are not
    as many as the processed strays.
  */
  lemma AnswerIsRightIff(adj: Edges, nodes: set<Id>, tasks: set<Id>)
    requires EdgesInto(adj, nodes) && tasks <= nodes
    ensures (Passes(adj, nodes, tasks) <==> Sound(adj, tasks)) <==>
      if Sound(adj, tasks) then !FreeStray(adj, nodes, tasks)
      else |tasks - Grounded(adj, nodes)| != |Grounded(adj, nodes) - tasks|
  {
    CountsBalance(adj, nodes, tasks);
    if Sound(adj, tasks) {
      var g := Grounded(adj, nodes);
      SoundIsProcessed(adj, nodes, tasks);
      assert tasks - g == {};
      if FreeStray(adj, nodes, tasks) {
        var x :| x in nodes - tasks && Preds(adj, x) <= tasks;
        GroundedIsLimit(adj, nodes, 0);
        assert x in g - tasks;
      } else {
        StrayProcessed(adj, nodes, tasks, |nodes|);
        assert g - tasks == {};
      }
    }
    hide Grounded, Sound, Passes, FreeStray;
  }

  /** detectCycle is right whatever the edges are. */
  ghost predicate AlwaysRight(nodes: set<Id>, tasks: set<Id>) {
    forall adj: Edges :: EdgesInto(adj, nodes) ==> (Passes(adj, nodes, tasks) <==> Sound(adj, tasks))
  }

  /**
    On the two key sets alone no weaker condition than "only tasks have been given dependencies" will
    do: with any stray there are edges for which detectCycle is wrong.
  */
  lemma OnlyTasksIsWeakest(nodes: set<Id>, tasks: set<Id>)
    requires tasks <= nodes
    ensures AlwaysRight(nodes, tasks) <==> nodes == tasks
  {
    hide Passes, Sound;
    if nodes == tasks {
      forall adj: Edges | EdgesInto(adj, nodes)
        ensures Passes(adj, nodes, tasks) <==> Sound(adj, tasks)
      {
        OnlyTasksAreRight(adj, nodes);
      }
    } else if tasks == {} {
      var loops: Edges := map x | x in nodes :: {x};
      var x :| x in nodes;
      LoopsPass(loops, nodes, x);
      assert EdgesInto(loops, nodes);
    } else {
      var a :| a in tasks;
      var x :| x in nodes && x !in tasks;
      var fan: Edges := map[a := nodes - tasks];
      FanIsSound(fan, a, nodes, tasks, x);
      assert EdgesInto(fan, nodes);
    }
  }

  lemma OnlyTasksAreRight(adj: Edges, nodes: set<Id>)
    requires EdgesInto(adj, nodes)
    ensures Passes(adj, nodes, nodes) <==> Sound(adj, nodes)
    ensures Passes(adj, nodes, nodes) <==> Grounded(adj, nodes) == nodes
  {
    GroundedIsLimit(adj, nodes, 0);
    SubsetSize(Grounded(adj, nodes), nodes);
    GroundedIffClosedAndAcyclic(adj, nodes);
  }

  /** Without tasks, a stray that waits for itself is a cycle that nothing counts against. */
  lemma LoopsPass(loops: Edges, nodes: set<Id>, x: Id)
    requires loops == (map y | y in nodes :: {y}) && x in nodes
    ensures Passes(loops, nodes, {}) && !Sound(loops, {})
  {
    assert forall y :: y in nodes ==> Preds(loops, y) == {y};
    assert IsCycle(loops, [x, x]);
    LoopsNeverSettle(loops, nodes, |nodes|);
  }

  lemma {:induction false} LoopsNeverSettle(loops: Edges, nodes: set<Id>, k: nat)
    requires forall y :: y in nodes ==> Preds(loops, y) == {y}
    ensures Settled(loops, nodes, k) == {}
  {
    if k > 0 {
      LoopsNeverSettle(loops, nodes, k - 1);
    }
  }

  lemma FanPath(fan: Edges, a: Id, p: seq<Id>)
    requires (forall t :: Preds(fan, t) <= {a}) && Preds(fan, a) == {} && |p| >= 2 && IsPath(fan, p)
    ensures p[0] == a && p[|p| - 1] != a
  {
    assert p[0] in Preds(fan, p[1]) && p[|p| - 2] in Preds(fan, p[|p| - 1]);
  }

  /** Strays that wait for one task are processed on top of the tasks: a false alarm. */
  lemma FanIsSound(fan: Edges, a: Id, nodes: set<Id>, tasks: set<Id>, x: Id)
    requires tasks <= nodes && a in tasks && x in nodes - tasks && fan == map[a := nodes - tasks]
    ensures Sound(fan, tasks) && !Passes(fan, nodes, tasks)
  {
    assert forall t :: t in tasks ==> Preds(fan, t) == {};
    forall p | |p| >= 2 && IsPath(fan, p)
      ensures p[0] != p[|p| - 1]
    {
      FanPath(fan, a, p);
    }
    assert FreeStray(fan, nodes, tasks) by {
      assert Preds(fan, x) <= tasks;
    }
    AnswerIsRightIff(fan, nodes, tasks);
  }

  /** The loop over one processed id's neighbours, which both algorithms repeat. */
  method Release(adj: Edges, current: Id, temp: map<Id, int>, ghost gone: set<Id>)
    returns (next: map<Id, int>, freed: seq<Id>)
    requires EdgesInto(adj, temp.Keys)
    requires Residual(adj, gone, temp) && current !in gone
    ensures next.Keys == temp.Keys && Residual(adj, gone + {current}, next)
    ensures NoDup(freed) && Elems(freed) == Freed(adj, temp.Keys, gone, current)
  {
    hide Residual, Freed, Preds;
    next, freed := temp, [];
    var neighbors := if current in adj then adj[current] else {};
    NeighborResiduals(adj, temp, gone, current, neighbors);
    var todo := neighbors;
    while todo != {}
      invariant todo <= neighbors && next.Keys == temp.Keys
      invariant forall t :: t in next ==> next[t] == temp[t] - if t in neighbors - todo then 1 else 0
      invariant NoDup(freed)
      invariant forall t :: t in freed <==> t in neighbors - todo && temp[t] == 1
    {
      var neighbor :| neighbor in todo;
      var newDeg := next[neighbor] - 1;
      next := next[neighbor := newDeg];
      todo := todo - {neighbor};
      if newDeg == 0 {
        freed := freed + [neighbor];
      }
    }
    ReleasedResiduals(adj, temp, next, gone, current, neighbors);
  }

  /** The ids with in-degree zero, in the order the index is iterated. */
  method ZeroDegree(adj: Edges, inDegree: map<Id, int>) returns (zero: seq<Id>)
    requires Indexed(adj, inDegree)
    ensures NoDup(zero) && Elems(zero) == Layer(adj, inDegree.Keys, 0)
    ensures Residual(adj, {}, inDegree)
  {
    zero := [];
    var todo := inDegree.Keys;
    while todo != {}
      invariant todo <= inDegree.Keys && NoDup(zero)
      invariant forall t :: t in zero <==> t in inDegree.Keys - todo && inDegree[t] == 0
    {
      var id :| id in todo;
      todo := todo - {id};
      if inDegree[id] == 0 {
        zero := zero + [id];
      }
    }
    ZeroMeansFree(adj, inDegree);
  }

  /** One pass over a batch: releases the neighbours of each member and collects what became free. */
  method NextBatch(adj: Edges, currentBatch: seq<Id>, temp: map<Id, int>, ghost k: nat)
    returns (next: map<Id, int>, nextBatch: seq<Id>)
    requires EdgesInto(adj, temp.Keys)
    requires Residual(adj, Settled(adj, temp.Keys, k), temp)
    requires NoDup(currentBatch) && Elems(currentBatch) == Layer(adj, temp.Keys, k)
    ensures next.Keys == temp.Keys && Residual(adj, Settled(adj, temp.Keys, k + 1), next)
    ensures NoDup(nextBatch) && Elems(nextBatch) == Layer(adj, temp.Keys, k + 1)
  {
    hide Residual, Freed, Preds, Settled, NewlyFree, Layer;
    ghost var nodes := temp.Keys;
    ghost var start := Settled(adj, nodes, k);
    next, nextBatch := temp, [];
    LayerIsFree(adj, nodes, k);
    NewlyFreeStart(adj, nodes, start);
    ghost var gone := start;
    for i := 0 to |currentBatch|
      invariant gone == start + Elems(currentBatch[..i])
      invariant next.Keys == nodes && Residual(adj, gone, next)
      invariant NoDup(nextBatch) && Elems(nextBatch) == NewlyFree(adj, nodes, start, gone)
    {
      var current := currentBatch[i];
      PrefixStep(currentBatch, i);
      assert current in Elems(currentBatch);
      var freed;
      next, freed := Release(adj, current, next, gone);
      NewlyFreeStep(adj, nodes, start, gone, current);
      ElemsConcat(nextBatch, freed);
      nextBatch := nextBatch + freed;
      gone := gone + {current};
    }
    assert currentBatch[..|currentBatch|] == currentBatch;
    NextLayer(adj, nodes, k);
  }

  class TaskGraph {
    var tasks: map<Id, Task>
    var adjacencyList: Edges
    var inDegree: map<Id, int>

    ghost predicate Valid()
      reads this
    {
      Indexed(adjacencyList, inDegree) && tasks.Keys <= inDegree.Keys
    }

    /** Only registered tasks have been given dependencies; addTask alone never breaks this. */
    ghost predicate OnlyTasks()
      reads this
    {
      inDegree.Keys == tasks.Keys
    }

    constructor ()
      ensures Valid() && OnlyTasks()
      ensures tasks == map[] && adjacencyList == map[]
    {
      tasks, adjacencyList, inDegree := map[], map[], map[];
    }

    method AddDependency(taskId: Id, dependsOnTaskId: Id)
      requires Valid()
      modifies this
      ensures Valid() && tasks == old(tasks)
      ensures inDegree.Keys == old(inDegree.Keys) + {taskId}
      ensures adjacencyList == AddEdge(old(adjacencyList), taskId, dependsOnTaskId)
    {
      hide Indexed;
      ghost var adj := adjacencyList;
      AddEdgeCounts(adj, inDegree, taskId, dependsOnTaskId);
      if dependsOnTaskId !in adjacencyList {
        adjacencyList := adjacencyList[dependsOnTaskId := {}];
      }
      if taskId !in adjacencyList[dependsOnTaskId] {
        adjacencyList := adjacencyList[dependsOnTaskId := adjacencyList[dependsOnTaskId] + {taskId}];
        inDegree := inDegree[taskId := (if taskId in inDegree then inDegree[taskId] else 0) + 1];
        assert adjacencyList == AddEdge(adj, taskId, dependsOnTaskId);
      }
    }

    method AddTask(task: Task)
      requires Valid()
      modifies this
      ensures Valid() && (old(OnlyTasks()) ==> OnlyTasks())
      ensures tasks == old(tasks)[task.id := task]
      ensures inDegree.Keys == old(inDegree.Keys) + {task.id}
      ensures adjacencyList == AddEdges(AddNode(old(adjacencyList), task.id), task.id, task.dependsOnTaskIds)
    {
      hide Indexed;
      AddNodeCounts(adjacencyList, inDegree, task.id);
      tasks := tasks[task.id := task];
      if task.id !in adjacencyList {
        adjacencyList := adjacencyList[task.id := {}];
      }
      if task.id !in inDegree {
        inDegree := inDegree[task.id := 0];
      }
      ghost var start := adjacencyList;
      ghost var deps := task.dependsOnTaskIds;
      for i := 0 to |task.dependsOnTaskIds|
        invariant Valid() && tasks == old(tasks)[task.id := task]
        invariant inDegree.Keys == old(inDegree.Keys) + {task.id}
        invariant adjacencyList == AddEdges(start, task.id, deps[..i])
      {
        AddDependency(task.id, task.dependsOnTaskIds[i]);
        assert deps[..i + 1][..i] == deps[..i];
      }
      assert deps[..|deps|] == deps;
    }

    /** False exactly when Kahn's algorithm reaches as many ids as there are tasks. */
    method DetectCycle() returns (cyclic: bool)
      requires Valid()
      ensures !cyclic <==> Passes(adjacencyList, inDegree.Keys, tasks.Keys)
      ensures !cyclic <==>
        |tasks.Keys - Grounded(adjacencyList, inDegree.Keys)| == |Grounded(adjacencyList, inDegree.Keys) - tasks.Keys|
      ensures OnlyTasks() ==> (!cyclic <==> Sound(adjacencyList, tasks.Keys))
      ensures (!cyclic <==> Sound(adjacencyList, tasks.Keys)) <==>
        if Sound(adjacencyList, tasks.Keys) then !FreeStray(adjacencyList, inDegree.Keys, tasks.Keys)
        else
          |tasks.Keys - Grounded(adjacencyList, inDegree.Keys)| !=
          |Grounded(adjacencyList, inDegree.Keys) - tasks.Keys|
    {
      var adj, temp := adjacencyList, inDegree;
      ghost var nodes := inDegree.Keys;
      assert EdgesInto(adj, nodes);
      hide EdgesInto, Residual, Reached, Freed, Preds, Settled, Layer, Sound, FreeStray, Grounded;
      var queue := ZeroDegree(adj, inDegree);
      var processedCount := 0;
      ghost var gone: set<Id> := {};
      ReachedStart(adj, nodes);
      while queue != []
        invariant temp.Keys == nodes && Residual(adj, gone, temp)
        invariant NoDup(queue) && Reached(adj, nodes, gone, Elems(queue)) && processedCount == |gone|
        decreases |nodes - gone|
      {
        var current := queue[0];
        assert current in Elems(queue);
        ReachedPick(adj, nodes, gone, Elems(queue), current);
        ReachedStep(adj, nodes, gone, Elems(queue), current);
        var freed;
        temp, freed := Release(adj, current, temp, gone);
        HeadTail(queue);
        ElemsConcat(queue[1..], freed);
        queue := queue[1..] + freed;
        processedCount := processedCount + 1;
        gone := gone + {current};
      }
      assert Elems(queue) == {};
      ReachedEnd(adj, nodes, gone);
      cyclic := processedCount != |tasks|;
      assert |tasks| == |tasks.Keys|;
      CountsBalance(adj, nodes, tasks.Keys);
      AnswerIsRightIff(adj, nodes, tasks.Keys);
      if OnlyTasks() {
        OnlyTasksAreRight(adj, nodes);
      }
    }

    method GetReadyTasks() returns (ready: seq<Id>)
      modifies this`tasks
      ensures NoDup(ready) && Elems(ready) == old(ReadySet(tasks))
      ensures forall t :: t in ready <==> old(
        && t in tasks && tasks[t].status in {BACKLOG, READY}
        && forall d :: d in tasks[t].dependsOnTaskIds ==> d in tasks && tasks[d].status == COMPLETED)
      ensures tasks == old(WithStatus(tasks, ReadySet(tasks), READY))
    {
      ghost var was := tasks;
      ready := [];
      var todo := tasks.Keys;
      while todo != {}
        invariant todo <= was.Keys && tasks.Keys == was.Keys && NoDup(ready)
        invariant forall t :: t in ready <==> t in ReadySet(was) && t !in todo
        invariant forall t :: t in was ==>
          tasks[t] == if t in ready then was[t].(status := READY) else was[t]
      {
        var id :| id in todo;
        var task := tasks[id];
        todo := todo - {id};
        if task.status == BACKLOG || task.status == READY {
          var allDepsCompleted := forall d | d in task.dependsOnTaskIds :: d in tasks && tasks[d].status == COMPLETED;
          if allDepsCompleted {
            tasks := tasks[id := task.(status := READY)];
            ready := ready + [id];
          }
        }
      }
    }

    method GetExecutionBatches() returns (result: Result<seq<seq<Id>>>)
      requires Valid()
      ensures result.Ok? <==> Passes(adjacencyList, inDegree.Keys, tasks.Keys)
      ensures OnlyTasks() ==> (result.Ok? <==> Sound(adjacencyList, tasks.Keys))
      ensures result.Ok? ==> ListsLayers(adjacencyList, inDegree.Keys, result.value)
      ensures result.Ok? ==> ExactBatches(adjacencyList, Grounded(adjacencyList, inDegree.Keys), result.value)
      ensures result.Ok? ==>
        (ExactBatches(adjacencyList, tasks.Keys, result.value) <==>
          tasks.Keys == Grounded(adjacencyList, inDegree.Keys))
      ensures OnlyTasks() && result.Ok? ==> ExactBatches(adjacencyList, tasks.Keys, result.value)
    {
      var adj, temp := adjacencyList, inDegree;
      ghost var nodes := inDegree.Keys;
      assert EdgesInto(adj, nodes);
      if OnlyTasks() {
        OnlyTasksAreRight(adj, nodes);
      }
      hide EdgesInto, Residual, Freed, Preds, Settled, Layer, Sound, Passes, Grounded, ExactBatches, NoDup, ListsLayers;
      var cyclic := DetectCycle();
      if cyclic {
        return Err("Cyclic dependency detected in task graph");
      }
      var batches: seq<seq<Id>> := [];
      var currentBatch := ZeroDegree(adj, inDegree);
      ghost var k := 0;
      LayersStart(adj, nodes);
      while currentBatch != []
        invariant temp.Keys == nodes && Residual(adj, Settled(adj, nodes, k), temp)
        invariant k == |batches| && NoDup(currentBatch) && Elems(currentBatch) == Layer(adj, nodes, k)
        invariant ListsLayers(adj, nodes, batches)
        decreases |nodes - Settled(adj, nodes, k)|
      {
        ListOneMore(adj, nodes, batches, currentBatch);
        batches := batches + [currentBatch];
        temp, currentBatch := NextBatch(adj, currentBatch, temp, k);
        k := k + 1;
      }
      result := Ok(batches);
      assert Elems(currentBatch) == {};
      AllLayersAreExact(adj, nodes, batches);
      ExactForOneSet(adj, Grounded(adj, nodes), tasks.Keys, batches);
    }
  }

  /** An edge into an id that was never added raises a false alarm on a sound graph. */
  method StrayRaisesFalseAlarm(a: Task, x: Id) returns (g: TaskGraph, cyclic: bool)
    requires a.dependsOnTaskIds == [] && a.id != x
    ensures fresh(g) && g.Valid() && g.tasks == map[a.id := a]
    ensures Sound(g.adjacencyList, g.tasks.Keys) && cyclic
  {
    g := new TaskGraph();
    g.AddTask(a);
    g.AddDependency(x, a.id);
    assert g.adjacencyList == map[a.id := {x}];
    assert g.inDegree.Keys - g.tasks.Keys == {x};
    FanIsSound(g.adjacencyList, a.id, g.inDegree.Keys, g.tasks.Keys, x);
    cyclic := g.DetectCycle();
  }

  /** The same edge next to a task that waits for itself. */
  method StrayBesideCycle(a: Task, c: Task, x: Id) returns (g: TaskGraph)
    requires a.dependsOnTaskIds == [] && c.dependsOnTaskIds == [c.id]
    requires a.id != x && a.id != c.id && x != c.id
    ensures fresh(g) && g.Valid() && g.tasks == map[a.id := a, c.id := c] && g.inDegree.Keys == {a.id, x, c.id}
    ensures g.adjacencyList == map[a.id := {x}, c.id := {c.id}]
  {
    hide Indexed, EdgesInto, AddEdge, AddEdges, AddNode;
    StrayEdges(a.id, c.id, x);
    g := new TaskGraph();
    g.AddTask(a);
    g.AddTask(c);
    g.AddDependency(x, a.id);
  }

  /** There the counts agree and the cycle stays hidden. */
  method StrayHidesCycle(a: Task, c: Task, x: Id) returns (g: TaskGraph, cyclic: bool)
    requires a.dependsOnTaskIds == [] && c.dependsOnTaskIds == [c.id]
    requires a.id != x && a.id != c.id && x != c.id
    ensures fresh(g) && g.Valid() && g.tasks == map[a.id := a, c.id := c]
    ensures IsCycle(g.adjacencyList, [c.id, c.id]) && !cyclic
  {
    hide Sound, Grounded, FreeStray, Passes, Indexed, EdgesInto, IsCycle;
    g := StrayBesideCycle(a, c, x);
    assert g.tasks.Keys == {a.id, c.id};
    StrayEdgeHidesCycle(a.id, x, c.id);
    cyclic := g.DetectCycle();
  }

  /** And the batches list the id that was never added, but not the task on the cycle. */
  method StrayIsBatched(a: Task, c: Task, x: Id) returns (g: TaskGraph, result: Result<seq<seq<Id>>>)
    requires a.dependsOnTaskIds == [] && c.dependsOnTaskIds == [c.id]
    requires a.id != x && a.id != c.id && x != c.id
    ensures fresh(g) && g.Valid() && g.tasks == map[a.id := a, c.id := c]
    ensures result.Ok? && ExactBatches(g.adjacencyList, {a.id, x}, result.value)
    ensures !ExactBatches(g.adjacencyList, g.tasks.Keys, result.value)
  {
    hide Sound, Grounded, FreeStray, Passes, Indexed, EdgesInto, IsCycle, ExactBatches, ListsLayers;
    g := StrayBesideCycle(a, c, x);
    assert g.tasks.Keys == {a.id, c.id};
    StrayEdgeHidesCycle(a.id, x, c.id);
    result := g.GetExecutionBatches();
    assert x in {a.id, x} && x !in {a.id, c.id};
  }

  lemma StrayEdges(a: Id, c: Id, x: Id)
    requires a != c
    ensures AddEdge(AddEdges(AddNode(AddEdges(AddNode(map[], a), a, []), c), c, [c]), x, a) == map[a := {x}, c := {c}]
  {
    var adj, deps := AddEdges(AddNode(map[], a), a, []), [c];
    assert adj == map[a := {}];
    assert deps[..|deps| - 1] == [] && {} + {c} == {c} && {} + {x} == {x};
    assert AddEdges(AddNode(adj, c), c, []) == map[a := {}, c := {}];
    assert AddEdges(AddNode(adj, c), c, deps) == map[a := {}, c := {c}];
  }

  /** The counts agree by chance: one stray is processed and one task is not. */
  lemma StrayEdgeHidesCycle(a: Id, x: Id, c: Id)
    requires a != x && a != c && x != c
    ensures var adj := map[a := {x}, c := {c}];
      Grounded(adj, {a, x, c}) == {a, x} && Passes(adj, {a, x, c}, {a, c}) && IsCycle(adj, [c, c]) &&
        !Sound(adj, {a, c})
  {
    var adj: Edges := map[a := {x}, c := {c}];
    assert Preds(adj, a) == {} && Preds(adj, x) == {a} && Preds(adj, c) == {c};
    assert |{a, x, c}| == 3 && IsCycle(adj, [c, c]);
    StraySettled(adj, a, x, c);
  }

  lemma StraySettled(adj: Edges, a: Id, x: Id, c: Id)
    requires a != x && a != c && x != c
    requires Preds(adj, a) == {} && Preds(adj, x) == {a} && Preds(adj, c) == {c}
    ensures Settled(adj, {a, x, c}, 3) == {a, x}
  {
    var nodes := {a, x, c};
    hide Preds;
    assert Settled(adj, nodes, 0) == {};
    assert Settled(adj, nodes, 1) == {a};
    assert Settled(adj, nodes, 2) == {a, x};
  }
}
