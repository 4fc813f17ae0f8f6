/** What the mission loop's outcomes, reports, orders and sizes are, said without the steps that compute them. */
module MissionOutcomes {
  import opened Common
  import opened Missions
  import opened MissionSafety
  import opened MissionTheorems
  import opened MissionTermination

  // ---------------------------------------------------------------- when an attempt passes

  /** Attempt k reported COMPLETED, its verification succeeded and its merge, if any was due, did too. */
  ghost predicate PassedAt(c: Config, t: Id, entries: map<Id, Entry>, k: nat)
    requires k > 0
  {
    && VerifiedAt(c, t, entries, k).Some? && VerifiedAt(c, t, entries, k).value.success
    && c.world.merge(t, k).None?
  }

  /** An attempt passes exactly when it was reported completed, verified with success and merged. */
  lemma PassesIff(c: Config, t: Id, entries: map<Id, Entry>, k: nat)
    ensures After(c, t, entries, k).ok <==> k > 0 && PassedAt(c, t, entries, k)
  {
    if k > 0 {
      AfterCounts(c, t, entries, k - 1);
      AttemptPassesIff(c.world, t, entries, After(c, t, entries, k - 1));
      assert After(c, t, entries, k) == Attempt(c.world, t, entries, After(c, t, entries, k - 1));
      hide After, Attempt, HandoffFor;
    }
  }

  lemma AttemptPassesIff(w: World, t: Id, entries: map<Id, Entry>, l: Locals)
    ensures var n := l.attempt + 1;
      var answer := w.dispatch(t, n, HandoffFor(entries, l));
      Attempt(w, t, entries, l).ok <==>
        && answer.success && answer.report.Some? && answer.report.value.completed
        && w.verify(t, n, answer.report.value).success && w.merge(t, n).None?
  {
    hide Join, HandoffFor;
  }

  ghost function Answer(c: Config, t: Id, entries: map<Id, Entry>, k: nat): Dispatched
    requires k > 0
  {
    c.world.dispatch(t, k, HandoffFor(entries, After(c, t, entries, k - 1)))
  }

  function Noted(report: Report, note: string): Report {
    report.(summary := report.summary + note)
  }

  /**
    The four endings of an attempt and what each leaves: an incomplete dispatch keeps the worker's
    report, if any, and the earlier verification; a failed verification and a failed merge are noted
    in the summary; a pass files the worker's report as it is.
  */
  lemma EndingsOfAttempt(c: Config, t: Id, entries: map<Id, Entry>, k: nat)
    requires k > 0
    ensures var answer, l := Answer(c, t, entries, k), After(c, t, entries, k);
      if !answer.success || answer.report.None? || !answer.report.value.completed then
        l.report == answer.report && l.verification == After(c, t, entries, k - 1).verification
      else
        var report := answer.report.value;
        var v := c.world.verify(t, k, report);
        && l.verification == Some(v)
        && l.report == Some(
          if !v.success then Noted(report, " [Verification Failed: " + Join(v.errors) + "]")
          else if c.world.merge(t, k).Some? then Noted(report, " [Git merge failed: " + c.world.merge(t, k).value + "]")
          else report)
  {
    AfterCounts(c, t, entries, k - 1);
    var answer := Answer(c, t, entries, k);
    if answer.report.Some? {
      var report := answer.report.value;
      var v := c.world.verify(t, k, report);
      NotedInPieces(report, " [Verification Failed: ", Join(v.errors));
      if c.world.merge(t, k).Some? {
        NotedInPieces(report, " [Git merge failed: ", c.world.merge(t, k).value);
      }
    }
    hide Join;
  }

  lemma NotedInPieces(report: Report, prefix: string, text: string)
    ensures report.(summary := report.summary + prefix + text + "]") == Noted(report, prefix + text + "]")
  {
    assert report.summary + prefix + text + "]" == report.summary + (prefix + text + "]");
  }

  /** `errors.join(', ')`, built up from the front. */
  lemma {:induction false} JoinPush(parts: seq<string>, last: string)
    ensures Join(parts + [last]) == if parts == [] then last else Join(parts) + ", " + last
  {
    if |parts| > 0 {
      JoinPush(parts[1..], last);
      assert (parts + [last])[1..] == parts[1..] + [last];
      if |parts| > 1 {
        assert parts[0] + ", " + (Join(parts[1..]) + ", " + last) == parts[0] + ", " + Join(parts[1..]) + ", " + last;
      }
    } else {
      assert parts + [last] == [last];
    }
  }

  /** The number of attempts a task may take. */
  lemma BudgetMeans(c: Config, l: Locals)
    ensures c.Budget() == if c.policy.maxTaskRetries >= 0 then c.policy.maxTaskRetries + 1 else 0
    ensures GoesOn(c, l) <==> !l.ok && l.attempt < c.Budget()
  {
  }

  /**
    A completed task has a filed verification that succeeded, reached by an attempt within the budget
    whose merge succeeded; all attempts before that one failed to pass.
  */
  lemma CompletedWasVerified(c: Config, actions: seq<Action>, s: State, t: Id)
    requires c.Valid() && Run(c, actions, s) && t in s.completedSet
    ensures t in c.plan.deps && t in s.reports
    ensures s.reports[t].report.completed && s.reports[t].verification.Some? && s.reports[t].verification.value.success
    ensures exists k :: 0 < k <= c.policy.maxTaskRetries + 1 && PassesFirstAt(c, t, s.reports, k)
  {
    hide Run, Inv;
    RunKeepsInv(c, actions, s);
    CompletedIsFiled(c, s, t);
    var entries := Entries(c.plan.deps[t], s.reports);
    hide Entries, Outcome, After, VerifiedAt;
    OutcomeIsFirstPass(c, t, entries);
    var k := Outcome(c, t, entries).attempt;
    forall j: nat | j <= k {
      PassesIff(c, t, entries, j);
    }
    AfterCounts(c, t, entries, k - 1);
    VerificationStep(c, t, entries, k);
    EndingsOfAttempt(c, t, entries, k);
    PassedWasAnswered(c, t, entries, k);
    assert PassesFirstAt(c, t, s.reports, k);
  }

  lemma PassedWasAnswered(c: Config, t: Id, entries: map<Id, Entry>, k: nat)
    requires k > 0 && PassedAt(c, t, entries, k)
    ensures var answer := Answer(c, t, entries, k);
      && answer.success && answer.report.Some? && answer.report.value.completed
      && c.world.verify(t, k, answer.report.value).success && c.world.merge(t, k).None?
  {
    hide After, HandoffFor;
  }

  /** The task's filed verification succeeded, and an attempt within the budget passed. */
  ghost predicate WasVerified(c: Config, s: State, t: Id) {
    && t in c.plan.deps && t in s.reports
    && s.reports[t].report.completed && s.reports[t].verification.Some? && s.reports[t].verification.value.success
    && exists k :: 0 < k <= c.policy.maxTaskRetries + 1 && PassesFirstAt(c, t, s.reports, k)
  }

  lemma AllVerified(c: Config, actions: seq<Action>, s: State)
    requires c.Valid() && Run(c, actions, s)
    ensures forall t :: t in s.completed ==> WasVerified(c, s, t)
  {
    RunKeepsInv(c, actions, s);
    hide Run, Lists, Queued, LoopOk, TasksOk, Ordered, PassesFirstAt;
    assert s.completedSet == Elems(s.completed);
    hide Inv, Bookkeeping;
    forall t | t in s.completed
      ensures WasVerified(c, s, t)
    {
      CompletedWasVerified(c, actions, s, t);
    }
  }

  /** Attempt k is the first to pass, and what is filed is its worker's report and its own verification. */
  ghost predicate PassesFirstAt(c: Config, t: Id, reports: map<Id, Stored>, k: nat)
    requires t in c.plan.deps
  {
    var entries := Entries(c.plan.deps[t], reports);
    && k > 0 && PassedAt(c, t, entries, k)
    && (forall j :: 0 < j < k ==> !PassedAt(c, t, entries, j))
    && t in reports && reports[t].verification == VerifiedAt(c, t, entries, k)
    && Answer(c, t, entries, k).report == Some(reports[t].report)
  }

  /** A failed task was dispatched as often as the policy allows and none of its attempts passed. */
  lemma FailedTriedAll(c: Config, actions: seq<Action>, s: State, t: Id)
    requires c.Valid() && Run(c, actions, s) && t in s.failed
    ensures t in c.plan.deps
    ensures Count(actions, Dispatch(t)) == if c.policy.maxTaskRetries >= 0 then c.policy.maxTaskRetries + 1 else 0
    ensures forall k :: 0 < k <= c.policy.maxTaskRetries + 1 ==>
      !PassedAt(c, t, Entries(c.plan.deps[t], s.reports), k)
  {
    RunKeepsInv(c, actions, s);
    FailedIsOutcome(c, s, t);
    hide Inv, Run, Entries, Outcome, PassedAt, Count;
    TriesAreBounded(c, actions, s, t);
    NoAttemptPassed(c, t, Entries(c.plan.deps[t], s.reports));
  }

  /** An outcome that is no pass used up the budget without a pass. */
  lemma NoAttemptPassed(c: Config, t: Id, entries: map<Id, Entry>)
    requires !Outcome(c, t, entries).ok
    ensures Outcome(c, t, entries).attempt == c.Budget()
    ensures forall k :: 0 < k <= c.policy.maxTaskRetries + 1 ==> !PassedAt(c, t, entries, k)
  {
    FinishFromAfter(c, t, entries, 0);
    assert After(c, t, entries, 0) == FRESH;
    OutcomeIsFirstPass(c, t, entries);
    hide After, VerifiedAt, PassedAt, Finish, Outcome;
    forall k: nat | 0 < k <= c.policy.maxTaskRetries + 1
      ensures !PassedAt(c, t, entries, k)
    {
      PassesIff(c, t, entries, k);
      assert k <= c.Budget();
    }
  }

  lemma FailedIsOutcome(c: Config, s: State, t: Id)
    requires Inv(c, s) && t in s.failed
    ensures t in c.plan.deps && t in s.phase && s.phase[t].Finished? && !s.phase[t].l.ok
    ensures s.phase[t].l == Outcome(c, t, Entries(c.plan.deps[t], s.reports))
    ensures s.status[t] == FAILED
  {
    hide NoDup, TasksOk, LoopOk, Ordered, Queued, Finish;
    assert t in s.phase && Is(InFailed, s.phase[t]);
    Knows(c, s, t);
  }

  // ---------------------------------------------------------------- what a dispatched worker is told

  /** A hand-off repeats, for each dependency, four fields of the report it has filed. */
  lemma HandoffRepeatsReports(c: Config, actions: seq<Action>, s: State, t: Id, d: Id)
    requires c.Valid() && Run(c, actions, s) && Enabled(c, s, Dispatch(t)) && d in c.plan.deps[t]
    ensures d in s.reports && d in Apply(c, s, Dispatch(t)).phase[t].entries
    ensures var e, r := Apply(c, s, Dispatch(t)).phase[t].entries[d], s.reports[d].report;
      e.workerId == r.workerId && e.summary == r.summary
      && e.filesCreated == r.filesCreated && e.filesModified == r.filesModified
  {
    DispatchIsSafe(c, actions, s, t);
    hide Run, Inv;
  }

  // ---------------------------------------------------------------- orders

  lemma {:induction false} RootsInOrder(plan: Plan, order: seq<Id>)
    ensures Subsequence(Roots(plan, order), order)
  {
    if order != [] {
      var start, t := order[..|order| - 1], order[|order| - 1];
      RootsInOrder(plan, start);
      hide Subsequence;
      SubsequencePush(Roots(plan, start), start, t);
      assert start + [t] == order && Roots(plan, start) + [] == Roots(plan, start);
    }
  }

  lemma {:induction false} NewlyReadyInOrder(plan: Plan, order: seq<Id>, status: map<Id, TaskStatus>, queue: seq<Id>,
                                             done: set<Id>)
    ensures Subsequence(NewlyReady(plan, order, status, queue, done), order)
  {
    if order != [] {
      var start, t := order[..|order| - 1], order[|order| - 1];
      NewlyReadyInOrder(plan, start, status, queue, done);
      var before := NewlyReady(plan, start, status, queue, done);
      SubsequencePush(before, start, t);
      assert start + [t] == order && before + [] == before;
      hide Unlockable;
    }
  }

  /** An unlocked task: blocked so far, and all its dependencies have completed. */
  ghost predicate Unblocks(plan: Plan, status: map<Id, TaskStatus>, done: set<Id>, t: Id) {
    && t in plan.deps && t in status && (status[t] == BLOCKED || status[t] == PENDING)
    && forall d :: d in plan.deps[t] ==> d in done
  }

  /**
    The ready queue is first in, first out: a pop takes its front, an unlock appends the tasks it
    unblocks in plan order, no other step touches it; it starts with the tasks without dependencies in
    plan order.
  */
  lemma QueueIsFifo(c: Config, s: State, a: Action)
    requires c.Valid() && Inv(c, s) && Enabled(c, s, a)
    ensures Subsequence(Init(c.plan).queue, c.plan.order)
    ensures forall t :: t in Init(c.plan).queue <==> t in c.plan.deps && c.plan.deps[t] == []
    ensures var s' := Apply(c, s, a);
      match a
      case Pop => s.queue == s'.loop.tasks + s'.queue
      case Unlock(_) =>
        s.queue <= s'.queue && Subsequence(s'.queue[|s.queue|..], c.plan.order)
        && forall t :: t in s'.queue[|s.queue|..] <==> Unblocks(c.plan, s.status, s.completedSet, t) && t !in s.queue
      case _ => s'.queue == s.queue
  {
    QueueStarts(c.plan);
    hide Inv, Init, Apply, Unblocks, Subsequence;
    StepQueue(c, s, a);
    if a.Unlock? {
      UnlockAppends(c.plan, s.status, s.queue, s.completedSet);
    }
  }

  lemma QueueStarts(plan: Plan)
    requires NoDup(plan.order) && plan.deps.Keys == Elems(plan.order)
    ensures Subsequence(Init(plan).queue, plan.order)
    ensures forall t :: t in Init(plan).queue <==> t in plan.deps && plan.deps[t] == []
  {
    RootsInOrder(plan, plan.order);
    RootsFacts(plan, plan.order);
    hide Subsequence;
    assert forall t :: t in plan.order <==> t in Elems(plan.order);
  }

  lemma StepQueue(c: Config, s: State, a: Action)
    requires Enabled(c, s, a)
    ensures var s' := Apply(c, s, a);
      match a
      case Pop => s.queue == s'.loop.tasks + s'.queue
      case Unlock(_) => s'.queue == s.queue + NewlyReady(c.plan, c.plan.order, s.status, s.queue, s.completedSet)
      case _ => s'.queue == s.queue
  {
    hide NewlyReady, Unlocked, Attempt, Entries, File, Without;
    if a.Pop? {
      assert s.queue == s.queue[..Slots(c, s)] + s.queue[Slots(c, s)..];
    }
  }

  lemma UnlockAppends(plan: Plan, status: map<Id, TaskStatus>, queue: seq<Id>, done: set<Id>)
    requires NoDup(plan.order) && plan.deps.Keys == Elems(plan.order)
    ensures var more := NewlyReady(plan, plan.order, status, queue, done);
      && (queue + more)[|queue|..] == more && NoDup(more) && Subsequence(more, plan.order)
      && forall t :: t in more <==> Unblocks(plan, status, done, t) && t !in queue
  {
    NewlyReadyInOrder(plan, plan.order, status, queue, done);
    NewlyReadyFacts(plan, plan.order, status, queue, done);
    hide NewlyReady;
    assert forall t :: t in plan.order <==> t in Elems(plan.order);
  }

  /** A batch takes as many queued tasks as there are, up to the width. */
  lemma BatchSize(c: Config, actions: seq<Action>, s: State)
    requires c.Valid() && Run(c, actions, s) && Enabled(c, s, Pop)
    ensures var batch, width := Apply(c, s, Pop).loop.tasks, c.policy.maxParallelWorkers;
      |batch| == if |s.queue| < width then |s.queue| else width
  {
    RunKeepsInv(c, actions, s);
    hide Run, Queued, TasksOk, Ordered;
    PopTakesSome(c, s);
  }

  lemma {:induction false} WithoutFilters(list: seq<Id>, x: Id)
    ensures Subsequence(Without(list, x), list)
  {
    if list != [] {
      WithoutFilters(list[1..], x);
      var first, rest := [list[0]], Without(list[1..], x);
      assert first[..0] == [];
      assert Subsequence(first, first) && Subsequence([], first);
      SubsequenceConcat(if list[0] == x then [] else first, first, rest, list[1..]);
      assert first + list[1..] == list && [] + rest == rest;
    }
  }

  /** Waiting and running tasks keep their order; starts, completions and failures are only ever appended. */
  lemma ListsKeepOrder(c: Config, s: State, a: Action)
    requires Enabled(c, s, a)
    ensures var s' := Apply(c, s, a);
      && Subsequence(s'.pending, s.pending) && s.completed <= s'.completed && s.failed <= s'.failed
      && if a.Leave? then Subsequence(s'.running, s.running) else s.running <= s'.running
  {
    hide NewlyReady, Unlocked, Attempt, Entries, File, Slots, Without;
    if a.Start? {
      WithoutFilters(s.pending, a.t);
    } else {
      if a.Leave? {
        WithoutFilters(s.running, a.t);
      }
      SubsequenceOfItself(s.pending);
    }
    hide Subsequence;
  }

  lemma {:induction false} SubsequenceOfItself(list: seq<Id>)
    ensures Subsequence(list, list)
  {
    if list != [] {
      SubsequenceOfItself(list[..|list| - 1]);
    }
  }

  // ---------------------------------------------------------------- statuses

  /** At the end a task's status says which list it is in; what was never started is still blocked. */
  lemma FinalStatuses(c: Config, actions: seq<Action>, s: State, t: Id)
    requires c.Valid() && Run(c, actions, s) && s.loop.Over? && t in c.plan.deps
    ensures t in s.status
    ensures s.status[t] == if t in s.completed then COMPLETED else if t in s.failed then FAILED else BLOCKED
  {
    RunKeepsInv(c, actions, s);
    hide Run;
    FinalStatus(c, s, t);
  }

  lemma FinalStatus(c: Config, s: State, t: Id)
    requires Inv(c, s) && s.loop.Over? && t in c.plan.deps
    ensures t in s.status
    ensures s.status[t] == if t in s.completed then COMPLETED else if t in s.failed then FAILED else BLOCKED
  {
    hide NoDup, TasksOk, Ordered, Finish, Entries, Held, Ready;
    Knows(c, s, t);
    assert s.phase[t].Idle? || s.phase[t].Finished?;
    assert t !in s.queue;
  }
}
