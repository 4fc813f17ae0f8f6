/** What every run of the mission loop guarantees, and what every finished run computes. */
module MissionTheorems {
  import opened Common
  import opened Missions
  import opened MissionSafety

  // ---------------------------------------------------------------- bookkeeping and dispatch

  ghost predicate Disjoint(a: seq<Id>, b: seq<Id>) {
    forall t :: !(t in a && t in b)
  }

  /**
    At every await the four id lists are duplicate-free and disjoint, no more than
    maxParallelWorkers tasks run, and the completed list and set agree.  At every loop head, and at
    the end, the lists cover the plan and nothing runs.
  */
  lemma BookkeepingAlways(c: Config, actions: seq<Action>, s: State)
    requires c.Valid() && Run(c, actions, s)
    ensures NoDup(s.pending) && NoDup(s.running) && NoDup(s.completed) && NoDup(s.failed)
    ensures Disjoint(s.pending, s.running) && Disjoint(s.pending, s.completed) && Disjoint(s.pending, s.failed)
    ensures Disjoint(s.running, s.completed) && Disjoint(s.running, s.failed) && Disjoint(s.completed, s.failed)
    ensures Elems(s.pending) + Elems(s.running) + Elems(s.completed) + Elems(s.failed) <= Elems(c.plan.order)
    ensures s.completedSet == Elems(s.completed)
    ensures |s.running| <= c.policy.maxParallelWorkers
    ensures !s.loop.Batch? ==>
      s.running == [] && Elems(s.pending) + Elems(s.completed) + Elems(s.failed) == Elems(c.plan.order)
  {
    RunKeepsInv(c, actions, s);
    hide Run, Lists, LoopOk, TasksOk, Ordered, Queued, Disjoint, NoDup;
    assert c.plan.deps.Keys == Elems(c.plan.order);
    RunningFitsBatch(c, s);
    KindFacts(s.pending, s.running, s.phase, InPending, InRunning);
    KindFacts(s.pending, s.completed, s.phase, InPending, InCompleted);
    KindFacts(s.pending, s.failed, s.phase, InPending, InFailed);
    KindFacts(s.running, s.completed, s.phase, InRunning, InCompleted);
    KindFacts(s.running, s.failed, s.phase, InRunning, InFailed);
    KindFacts(s.completed, s.failed, s.phase, InCompleted, InFailed);
    if !s.loop.Batch? {
      RestCovers(c, s);
    }
  }

  lemma KindFacts(a: seq<Id>, b: seq<Id>, phase: map<Id, Phase>, k: Kind, k': Kind)
    requires Lists(a, phase, k) && Lists(b, phase, k') && k != k'
    ensures NoDup(a) && NoDup(b) && Disjoint(a, b) && Elems(a) <= phase.Keys && Elems(b) <= phase.Keys
  {
  }

  lemma RestCovers(c: Config, s: State)
    requires Bookkeeping(s) && LoopOk(c, s) && !s.loop.Batch?
    ensures s.running == [] && Elems(s.pending) + Elems(s.completed) + Elems(s.failed) == s.phase.Keys
  {
    assert Elems(s.running) == {};
    NoMembers(s.running);
    hide NoDup;
    forall t | t in s.phase
      ensures t in s.pending || t in s.completed || t in s.failed
    {
      assert s.phase[t].Idle? || s.phase[t].Finished?;
    }
  }

  lemma RunningFitsBatch(c: Config, s: State)
    requires c.Valid() && Bookkeeping(s) && LoopOk(c, s)
    ensures |s.running| <= c.policy.maxParallelWorkers
  {
    var batch := if s.loop.Batch? then s.loop.tasks else [];
    assert forall t :: t in s.running ==> t in batch;
    NoDupSize(s.running);
    SizeAtMost(batch);
    SubsetSize(Elems(s.running), Elems(batch));
  }

  /**
    A task is dispatched only when every dependency has completed and has a filed report with the
    status COMPLETED, so the hand-off has an entry for each dependency and for nothing else.
  */
  lemma DispatchIsSafe(c: Config, actions: seq<Action>, s: State, t: Id)
    requires c.Valid() && Run(c, actions, s) && Enabled(c, s, Dispatch(t))
    ensures forall d :: d in c.plan.deps[t] ==>
      d in s.completedSet && d in s.reports && s.reports[d].report.completed
    ensures Apply(c, s, Dispatch(t)).phase[t].InFlight? && Apply(c, s, Dispatch(t)).status[t] == RUNNING
    ensures Apply(c, s, Dispatch(t)).phase[t].entries.Keys == Elems(c.plan.deps[t])
  {
    hide Run, Lists, Bookkeeping, Queued, LoopOk, Ordered, TasksOk, Finish, Held;
    RunKeepsInv(c, actions, s);
    Knows(c, s, t);
    forall d | d in c.plan.deps[t]
      ensures d in s.completedSet && d in s.reports && s.reports[d].report.completed
    {
      CompletedIsFiled(c, s, d);
    }
  }

  lemma CompletedIsFiled(c: Config, s: State, d: Id)
    requires Inv(c, s)
    ensures d in s.completedSet ==>
      && d in c.plan.deps && Ready(c.plan.deps[d], s.completedSet)
      && var l := Outcome(c, d, Entries(c.plan.deps[d], s.reports));
         l.ok && l.report.Some? && l.report.value.completed && d in s.reports &&
           s.reports[d] == Stored(l.report.value, l.verification)
  {
    if d in s.completedSet {
      assert d in s.completed && d in s.phase;
      hide Lists, Bookkeeping, Queued, LoopOk, Ordered, TasksOk, Held, Ready, Entries;
      Knows(c, s, d);
      FinishFacts(c, d, Entries(c.plan.deps[d], s.reports), FRESH);
      hide Finish;
    }
  }

  // ---------------------------------------------------------------- what the retry loop computes

  /** The locals after n attempts, if nothing ever stopped the loop. */
  ghost function After(c: Config, t: Id, entries: map<Id, Entry>, n: nat): Locals {
    if n == 0 then FRESH else Attempt(c.world, t, entries, After(c, t, entries, n - 1))
  }

  lemma {:induction false} FinishFromAfter(c: Config, t: Id, entries: map<Id, Entry>, n: nat)
    requires n <= c.Budget() && forall k :: 0 <= k < n ==> !After(c, t, entries, k).ok
    ensures var r := Finish(c, t, entries, After(c, t, entries, n));
      && r.attempt <= c.Budget() && r == After(c, t, entries, r.attempt)
      && (forall k :: 0 <= k < r.attempt ==> !After(c, t, entries, k).ok)
      && (r.ok || r.attempt == c.Budget())
    decreases c.Budget() - n
  {
    hide Attempt;
    AfterCounts(c, t, entries, n);
    if GoesOn(c, After(c, t, entries, n)) {
      FinishFromAfter(c, t, entries, n + 1);
    }
  }

  lemma {:induction false} AfterCounts(c: Config, t: Id, entries: map<Id, Entry>, n: nat)
    ensures After(c, t, entries, n).attempt == n
  {
    if n > 0 {
      AfterCounts(c, t, entries, n - 1);
    }
  }

  /** A task's outcome is its first passing attempt, or its last attempt within the budget if none passes. */
  lemma OutcomeIsFirstPass(c: Config, t: Id, entries: map<Id, Entry>)
    ensures var r := Outcome(c, t, entries);
      && r.attempt <= c.Budget() && r == After(c, t, entries, r.attempt)
      && (forall k :: 0 <= k < r.attempt ==> !After(c, t, entries, k).ok)
      && (r.ok <==> exists k :: 0 <= k <= c.Budget() && After(c, t, entries, k).ok)
  {
    FinishFromAfter(c, t, entries, 0);
  }

  /** The verification the k-th attempt reached, if it did. */
  ghost function VerifiedAt(c: Config, t: Id, entries: map<Id, Entry>, k: nat): Option<Verification>
    requires k > 0
  {
    var answer := c.world.dispatch(t, k, HandoffFor(entries, After(c, t, entries, k - 1)));
    if answer.success && answer.report.Some? && answer.report.value.completed
    then Some(c.world.verify(t, k, answer.report.value)) else None
  }

  /** Attempt k failed its verification and no attempt up to n has reached a verification since. */
  ghost predicate LatestFailure(c: Config, t: Id, entries: map<Id, Entry>, k: nat, n: nat, v: Verification) {
    && 0 < k <= n && VerifiedAt(c, t, entries, k) == Some(v) && !v.success
    && forall j :: k < j <= n ==> VerifiedAt(c, t, entries, j).None?
  }

  /**
    The hand-off of attempt n + 1 repeats the dependencies' entries and asks for a repair exactly when
    the latest verification that was reached failed, also across dispatches that failed in between.
  */
  lemma {:induction false} HandoffAsksForRepair(c: Config, t: Id, entries: map<Id, Entry>, n: nat)
    ensures var h := HandoffFor(entries, After(c, t, entries, n));
      && h.entries == entries
      && forall v :: h.repair == Some(v) <==> exists k :: LatestFailure(c, t, entries, k, n, v)
  {
    if n > 0 {
      HandoffAsksForRepair(c, t, entries, n - 1);
      AfterCounts(c, t, entries, n - 1);
      VerificationStep(c, t, entries, n);
      hide VerifiedAt, After, LatestFailure;
      forall v
        ensures HandoffFor(entries, After(c, t, entries, n)).repair == Some(v) <==>
          exists k :: LatestFailure(c, t, entries, k, n, v)
      {
        LatestFailureStep(c, t, entries, n - 1, n, v);
      }
    }
  }

  /** What one more attempt does to the latest failure: a verification replaces it, anything else keeps it. */
  lemma LatestFailureStep(c: Config, t: Id, entries: map<Id, Entry>, m: nat, n: nat, v: Verification)
    requires n == m + 1
    ensures (exists k :: LatestFailure(c, t, entries, k, n, v)) <==>
      if VerifiedAt(c, t, entries, n).Some? then VerifiedAt(c, t, entries, n).value == v && !v.success
      else exists k :: LatestFailure(c, t, entries, k, m, v)
  {
    hide VerifiedAt;
    if VerifiedAt(c, t, entries, n).Some? {
      if VerifiedAt(c, t, entries, n).value == v && !v.success {
        assert LatestFailure(c, t, entries, n, n, v);
      }
    } else {
      assert forall k :: LatestFailure(c, t, entries, k, n, v) ==> LatestFailure(c, t, entries, k, m, v);
      assert forall k :: LatestFailure(c, t, entries, k, m, v) ==> LatestFailure(c, t, entries, k, n, v);
    }
  }

  lemma VerificationStep(c: Config, t: Id, entries: map<Id, Entry>, n: nat)
    requires n > 0 && After(c, t, entries, n - 1).attempt == n - 1
    ensures After(c, t, entries, n).verification ==
      if VerifiedAt(c, t, entries, n).Some? then VerifiedAt(c, t, entries, n)
      else After(c, t, entries, n - 1).verification
  {
  }

  // ---------------------------------------------------------------- what a finished run computes

  /** A possible set of completed tasks with the report each one filed. */
  type Meaning = map<Id, Stored>

  ghost function Verdict(c: Config, m: Meaning, t: Id): Locals
    requires t in c.plan.deps
  {
    Outcome(c, t, Entries(c.plan.deps[t], m))
  }

  /** All dependencies completed in m, and the task succeeds when handed their reports. */
  ghost predicate Earned(c: Config, m: Meaning, t: Id) {
    t in c.plan.deps && Ready(c.plan.deps[t], m.Keys) && Verdict(c, m, t).ok
  }

  /** m contains everything it earns: a pre-fixpoint. */
  ghost predicate Closed(c: Config, m: Meaning) {
    forall t :: Earned(c, m, t) ==> t in m && Filed(m, t, Verdict(c, m, t))
  }

  ghost predicate Fixpoint(c: Config, m: Meaning) {
    Closed(c, m) && forall t :: t in m ==> Earned(c, m, t)
  }

  ghost predicate Within(m: Meaning, n: Meaning) {
    forall t :: t in m ==> t in n && m[t] == n[t]
  }

  /** The completed tasks of a state with their reports. */
  ghost function Achieved(s: State): Meaning {
    map t | t in s.completedSet && t in s.reports :: s.reports[t]
  }

  lemma AchievedFacts(c: Config, s: State)
    requires Inv(c, s)
    ensures Achieved(s).Keys == s.completedSet && AgreeOn(s.completedSet, s.reports, Achieved(s))
  {
    forall d | d in s.completedSet
      ensures d in s.reports
    {
      CompletedIsFiled(c, s, d);
    }
  }

  lemma SameVerdict(c: Config, m: Meaning, n: Meaning, done: set<Id>, t: Id)
    requires t in c.plan.deps && Ready(c.plan.deps[t], done) && AgreeOn(done, m, n)
    ensures Verdict(c, m, t) == Verdict(c, n, t)
  {
    EntriesStable(c.plan.deps[t], done, m, n);
  }

  /** At the end a task has finished if its dependencies completed, and is untouched otherwise. */
  lemma OverIsSettled(c: Config, s: State, t: Id)
    requires Inv(c, s) && s.loop.Over? && t in c.plan.deps
    ensures if Ready(c.plan.deps[t], s.completedSet)
            then s.phase[t].Finished? && s.phase[t].l == Verdict(c, s.reports, t) && Filed(s.reports, t, s.phase[t].l)
            else s.phase[t].Idle? && t !in s.reports
  {
    Knows(c, s, t);
    assert s.phase[t].Idle? || s.phase[t].Finished?;
    assert t !in s.queue;
    hide NoDup, TasksOk, Ordered, Finish, Entries;
    if s.phase[t].Idle? {
      assert s.status[t] == BLOCKED && Held(c.plan.deps[t], s.phase);
      var d :| d in c.plan.deps[t] && !Passed(s.phase, d);
      assert d in s.phase ==> s.phase[d].Idle? || s.phase[d].Finished?;
      assert d !in s.completed;
    }
  }

  /** By the order of the completed list: whatever contains all it earns contains what completed. */
  lemma {:induction false} CompletedIsEarned(c: Config, s: State, m: Meaning, i: nat)
    requires Inv(c, s) && Closed(c, m) && i <= |s.completed|
    ensures forall t :: t in s.completed[..i] ==> t in m && t in s.reports && m[t] == s.reports[t]
  {
    hide Inv, Earned, Closed, Finish, Ready;
    if i > 0 {
      var t := s.completed[i - 1];
      CompletedIsEarned(c, s, m, i - 1);
      CompletedInOrder(c, s, i - 1);
      CompletedIsFiled(c, s, t);
      EarnedByOrder(c, s.reports, m, Elems(s.completed[..i - 1]), t);
      assert s.completed[..i] == s.completed[..i - 1] + [t];
    }
  }

  lemma CompletedInOrder(c: Config, s: State, i: nat)
    requires Inv(c, s) && i < |s.completed|
    ensures s.completed[i] in c.plan.deps && s.completed[i] in s.completedSet
    ensures Ready(c.plan.deps[s.completed[i]], Elems(s.completed[..i]))
    ensures Elems(s.completed[..i]) <= s.completedSet
  {
    assert s.completed[i] in s.completed;
  }

  lemma EarnedByOrder(c: Config, r: Meaning, m: Meaning, before: set<Id>, t: Id)
    requires Closed(c, m) && t in c.plan.deps && Ready(c.plan.deps[t], before)
    requires before <= m.Keys && AgreeOn(before, r, m)
    requires Verdict(c, r, t).ok && Verdict(c, r, t).report.Some?
    ensures t in m && Filed(m, t, Verdict(c, r, t))
  {
    SameVerdict(c, r, m, before, t);
    hide Verdict;
    assert Earned(c, m, t);
  }

  /**
    The result of a finished run: what completed, with its reports, is the least fixpoint of "all
    dependencies completed and own outcome succeeds"; what failed is exactly the tasks with all
    dependencies completed whose own outcome fails; everything else is still pending.
  */
  lemma LeastFixpoint(c: Config, actions: seq<Action>, s: State)
    requires c.Valid() && Run(c, actions, s) && s.loop.Over?
    ensures var m := Achieved(s);
      && m.Keys == Elems(s.completed)
      && Fixpoint(c, m)
      && (forall n :: Closed(c, n) ==> Within(m, n))
      && (forall t :: t in s.failed <==> t in c.plan.deps && Ready(c.plan.deps[t], m.Keys) && !Verdict(c, m, t).ok)
      && (forall t :: t in s.pending <==> t in c.plan.deps && !Ready(c.plan.deps[t], m.Keys))
      && (forall t :: t in c.plan.deps ==>
            if Ready(c.plan.deps[t], m.Keys) then Filed(s.reports, t, Verdict(c, m, t)) else t !in s.reports)
      && s.reports.Keys <= c.plan.deps.Keys
  {
    RunKeepsInv(c, actions, s);
    hide Run, Inv, Achieved, Lists, Queued, LoopOk, TasksOk, Ordered, Verdict, Ready, OverFacts, Fixpoint, Closed,
      Within;
    AchievedFacts(c, s);
    ListedAreTasks(c, s);
    var m := Achieved(s);
    forall t | t in c.plan.deps
      ensures OverFacts(c, s, m, t)
    {
      OverTask(c, s, m, t);
    }
    FixpointOfFacts(c, s, m);
    forall n | Closed(c, n)
      ensures Within(m, n)
    {
      CompletedIsWithin(c, s, n);
    }
  }

  lemma CompletedIsWithin(c: Config, s: State, n: Meaning)
    requires Inv(c, s) && Closed(c, n)
    ensures Within(Achieved(s), n)
  {
    CompletedIsEarned(c, s, n, |s.completed|);
    assert s.completed[..|s.completed|] == s.completed;
    assert forall t :: t in s.completedSet ==> t in s.completed;
    hide Inv, Closed;
  }

  lemma ListedAreTasks(c: Config, s: State)
    requires Inv(c, s)
    ensures Elems(s.completed) + Elems(s.failed) + Elems(s.pending) <= c.plan.deps.Keys
    ensures s.completedSet == Elems(s.completed) && s.reports.Keys <= c.plan.deps.Keys
  {
    hide Queued, TasksOk, LoopOk, Ordered;
  }

  lemma FixpointOfFacts(c: Config, s: State, m: Meaning)
    requires Elems(s.completed) + Elems(s.failed) + Elems(s.pending) <= c.plan.deps.Keys
    requires m.Keys == Elems(s.completed)
    requires forall t :: t in c.plan.deps ==> OverFacts(c, s, m, t)
    ensures Fixpoint(c, m)
    ensures forall t :: t in s.failed <==> t in c.plan.deps && Ready(c.plan.deps[t], m.Keys) && !Verdict(c, m, t).ok
    ensures forall t :: t in s.pending <==> t in c.plan.deps && !Ready(c.plan.deps[t], m.Keys)
    ensures forall t :: t in c.plan.deps ==>
      if Ready(c.plan.deps[t], m.Keys) then Filed(s.reports, t, Verdict(c, m, t)) else t !in s.reports
  {
    hide Verdict, Ready;
    assert forall t :: t in s.failed ==> t in Elems(s.failed);
    assert forall t :: t in s.pending ==> t in Elems(s.pending);
    assert forall t :: t in m ==> t in s.completed && t in c.plan.deps;
    hide Elems;
  }

  ghost predicate OverFacts(c: Config, s: State, m: Meaning, t: Id)
    requires t in c.plan.deps
  {
    && (t in s.completed <==> Ready(c.plan.deps[t], m.Keys) && Verdict(c, m, t).ok)
    && (t in s.completed ==> t in m && Filed(m, t, Verdict(c, m, t)))
    && (t in s.failed <==> Ready(c.plan.deps[t], m.Keys) && !Verdict(c, m, t).ok)
    && (t in s.pending <==> !Ready(c.plan.deps[t], m.Keys))
    && (if Ready(c.plan.deps[t], m.Keys) then Filed(s.reports, t, Verdict(c, m, t)) else t !in s.reports)
  }

  lemma OverTask(c: Config, s: State, m: Meaning, t: Id)
    requires Inv(c, s) && s.loop.Over? && t in c.plan.deps
    requires m == Achieved(s) && m.Keys == s.completedSet && AgreeOn(s.completedSet, s.reports, m)
    ensures OverFacts(c, s, m, t)
  {
    OverIsSettled(c, s, t);
    if Ready(c.plan.deps[t], s.completedSet) {
      SameVerdict(c, s.reports, m, s.completedSet, t);
    }
    assert t in s.completed <==> t in s.completedSet;
    hide NoDup, TasksOk, Queued, LoopOk, Ordered, Outcome, Ready, Entries, Achieved;
  }

  /** success is reported exactly when every task of the plan completed. */
  lemma SuccessIffAllCompleted(c: Config, actions: seq<Action>, s: State)
    requires c.Valid() && Run(c, actions, s)
    ensures |s.completed| == |c.plan.order| <==> Elems(s.completed) == Elems(c.plan.order)
  {
    BookkeepingAlways(c, actions, s);
    NoDupSize(s.completed);
    NoDupSize(c.plan.order);
    SubsetSize(Elems(s.completed), Elems(c.plan.order));
  }

  // ---------------------------------------------------------------- confluence

  lemma {:induction false} WidthIsInvisible(c: Config, c': Config, t: Id, entries: map<Id, Entry>, l: Locals)
    requires c'.world == c.world && c'.policy.maxTaskRetries == c.policy.maxTaskRetries
    ensures Finish(c, t, entries, l) == Finish(c', t, entries, l)
    decreases c.Budget() - l.attempt
  {
    if GoesOn(c, l) {
      WidthIsInvisible(c, c', t, entries, Attempt(c.world, t, entries, l));
    }
  }

  lemma WidthKeepsClosed(c: Config, c': Config, m: Meaning)
    requires c'.world == c.world && c'.plan == c.plan && c'.policy.maxTaskRetries == c.policy.maxTaskRetries
    requires Closed(c', m)
    ensures Closed(c, m)
  {
    forall t | Earned(c, m, t)
      ensures t in m && Filed(m, t, Verdict(c, m, t))
    {
      WidthIsInvisible(c, c', t, Entries(c.plan.deps[t], m), FRESH);
      assert Earned(c', m, t);
    }
  }

  /**
    Confluence: two finished runs of one plan against the same World agree on everything, whatever
    the interleavings and whatever the two widths are.
  */
  lemma Confluence(c: Config, c': Config, actions: seq<Action>, actions': seq<Action>, s: State, s': State)
    requires c.Valid() && Run(c, actions, s) && s.loop.Over?
    requires c'.Valid() && Run(c', actions', s') && s'.loop.Over?
    requires c'.plan == c.plan && c'.world == c.world && c'.policy.maxTaskRetries == c.policy.maxTaskRetries
    ensures Elems(s.completed) == Elems(s'.completed) && Elems(s.failed) == Elems(s'.failed)
    ensures Elems(s.pending) == Elems(s'.pending) && s.reports == s'.reports
    ensures |s.completed| == |c.plan.order| <==> |s'.completed| == |c'.plan.order|
  {
    hide Run, Achieved, Verdict, Ready, Closed, Fixpoint, Earned, Within, Filed;
    LeastFixpoint(c, actions, s);
    LeastFixpoint(c', actions', s');
    SuccessIffAllCompleted(c, actions, s);
    SuccessIffAllCompleted(c', actions', s');
    var m, m' := Achieved(s), Achieved(s');
    FixpointIsClosed(c, m);
    FixpointIsClosed(c', m');
    WidthKeepsClosed(c, c', m');
    WidthKeepsClosed(c', c, m);
    assert Within(m, m') && Within(m', m);
    WithinBothWays(m, m');
    forall t | t in c.plan.deps
      ensures Verdict(c, m, t) == Verdict(c', m, t)
    {
      SameVerdictAtAnyWidth(c, c', m, t);
    }
    SameList(s.failed, s'.failed);
    SameList(s.pending, s'.pending);
    SameReports(c, c', m, s.reports, s'.reports);
  }

  lemma FixpointIsClosed(c: Config, m: Meaning)
    requires Fixpoint(c, m)
    ensures Closed(c, m)
  {
  }

  lemma WithinBothWays(m: Meaning, m': Meaning)
    requires Within(m, m') && Within(m', m)
    ensures m == m'
  {
  }

  lemma SameVerdictAtAnyWidth(c: Config, c': Config, m: Meaning, t: Id)
    requires c'.plan == c.plan && c'.world == c.world && c'.policy.maxTaskRetries == c.policy.maxTaskRetries
    requires t in c.plan.deps
    ensures Verdict(c, m, t) == Verdict(c', m, t)
  {
    WidthIsInvisible(c, c', t, Entries(c.plan.deps[t], m), FRESH);
  }

  lemma SameList(a: seq<Id>, b: seq<Id>)
    requires forall t :: t in a <==> t in b
    ensures Elems(a) == Elems(b)
  {
  }

  lemma SameReports(c: Config, c': Config, m: Meaning, r: map<Id, Stored>, r': map<Id, Stored>)
    requires c'.plan == c.plan && r.Keys <= c.plan.deps.Keys && r'.Keys <= c.plan.deps.Keys
    requires forall t :: t in c.plan.deps ==> Verdict(c, m, t) == Verdict(c', m, t)
    requires forall t :: t in c.plan.deps ==>
      if Ready(c.plan.deps[t], m.Keys) then Filed(r, t, Verdict(c, m, t)) else t !in r
    requires forall t :: t in c.plan.deps ==>
      if Ready(c.plan.deps[t], m.Keys) then Filed(r', t, Verdict(c', m, t)) else t !in r'
    ensures r == r'
  {
    hide Verdict, Ready;
    forall t | t in c.plan.deps
      ensures t in r <==> t in r'
      ensures t in r ==> r[t] == r'[t]
    {
    }
  }
}
