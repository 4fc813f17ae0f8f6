/** Every step of the mission loop keeps the invariant, whatever order the bodies run in. */
module MissionSafety {
  import opened Common
  import opened Missions

  // ---------------------------------------------------------------- the four lists

  lemma ListsKeep(list: seq<Id>, phase: map<Id, Phase>, k: Kind, t: Id, p: Phase)
    requires Lists(list, phase, k) && t in phase && Is(k, phase[t]) == Is(k, p)
    ensures Lists(list, phase[t := p], k)
  {
  }

  lemma ListsAdd(list: seq<Id>, phase: map<Id, Phase>, k: Kind, t: Id, p: Phase)
    requires Lists(list, phase, k) && t in phase && !Is(k, phase[t]) && Is(k, p)
    ensures Lists(list + [t], phase[t := p], k) && t !in list
  {
  }

  lemma ListsDrop(list: seq<Id>, phase: map<Id, Phase>, k: Kind, t: Id, p: Phase)
    requires Lists(list, phase, k) && t in phase && Is(k, phase[t]) && !Is(k, p)
    ensures Lists(Without(list, t), phase[t := p], k)
  {
    WithoutNoDup(list, t);
  }

  /** The list after one task moves from one phase to another. */
  ghost function Moved(list: seq<Id>, phase: map<Id, Phase>, k: Kind, t: Id, p: Phase): seq<Id>
    requires t in phase
  {
    if Is(k, phase[t]) == Is(k, p) then list else if Is(k, p) then list + [t] else Without(list, t)
  }

  lemma ListsMove(list: seq<Id>, phase: map<Id, Phase>, k: Kind, t: Id, p: Phase)
    requires Lists(list, phase, k) && t in phase
    ensures Lists(Moved(list, phase, k, t, p), phase[t := p], k)
  {
    if Is(k, phase[t]) == Is(k, p) {
      ListsKeep(list, phase, k, t, p);
    } else if Is(k, p) {
      ListsAdd(list, phase, k, t, p);
    } else {
      ListsDrop(list, phase, k, t, p);
    }
  }

  lemma BookkeepingMove(s: State, s': State, t: Id, p: Phase)
    requires Bookkeeping(s) && t in s.phase && s'.phase == s.phase[t := p]
    requires s'.pending == Moved(s.pending, s.phase, InPending, t, p)
    requires s'.running == Moved(s.running, s.phase, InRunning, t, p)
    requires s'.completed == Moved(s.completed, s.phase, InCompleted, t, p)
    requires s'.failed == Moved(s.failed, s.phase, InFailed, t, p)
    requires s'.completedSet == Elems(s'.completed)
    ensures Bookkeeping(s')
  {
    hide Lists, Moved;
    ListsMove(s.pending, s.phase, InPending, t, p);
    ListsMove(s.running, s.phase, InRunning, t, p);
    ListsMove(s.completed, s.phase, InCompleted, t, p);
    ListsMove(s.failed, s.phase, InFailed, t, p);
  }

  // ---------------------------------------------------------------- what one task sees of the others

  lemma EntriesStable(deps: seq<Id>, done: set<Id>, r: map<Id, Stored>, r': map<Id, Stored>)
    requires Ready(deps, done) && AgreeOn(done, r, r')
    ensures Entries(deps, r) == Entries(deps, r')
  {
  }

  ghost predicate AgreeOn(done: set<Id>, r: map<Id, Stored>, r': map<Id, Stored>) {
    forall d :: d in done ==> (d in r <==> d in r') && (d in r ==> r[d] == r'[d])
  }

  ghost predicate NoNewPass(phase: map<Id, Phase>, phase': map<Id, Phase>) {
    forall d :: Passed(phase', d) ==> Passed(phase, d)
  }

  lemma HeldStable(deps: seq<Id>, phase: map<Id, Phase>, phase': map<Id, Phase>)
    requires Held(deps, phase) && NoNewPass(phase, phase')
    ensures Held(deps, phase')
  {
  }

  /** A task that does not move itself stays as it was. */
  lemma StaysOk(c: Config, s: State, s': State, t: Id)
    requires t in c.plan.deps && t in s.phase && t in s.status && t in s'.phase && t in s'.status
    requires TaskOk(c, s, t)
    requires s'.phase[t] == s.phase[t] && s'.status[t] == s.status[t]
    requires s.completedSet <= s'.completedSet && AgreeOn(s.completedSet, s.reports, s'.reports)
    requires (t in s.reports <==> t in s'.reports) && (t in s.reports ==> s.reports[t] == s'.reports[t])
    requires s.phase[t].Idle? && s.status[t] == BLOCKED ==> NoNewPass(s.phase, s'.phase)
    ensures TaskOk(c, s', t)
  {
    var deps := c.plan.deps[t];
    if Ready(deps, s.completedSet) {
      EntriesStable(deps, s.completedSet, s.reports, s'.reports);
      assert Ready(deps, s'.completedSet);
    }
    if s.phase[t].Idle? && s.status[t] == BLOCKED && Held(deps, s.phase) {
      HeldStable(deps, s.phase, s'.phase);
    }
    hide Entries, Ready, Held, AgreeOn, NoNewPass, Finish;
  }

  /** Steps of one body: only that task's phase and status change, and nothing is passed on yet. */
  lemma OthersStayOk(c: Config, s: State, s': State, t: Id)
    requires s.phase.Keys == s.status.Keys == c.plan.deps.Keys && t in s.phase && TasksOk(c, s)
    requires s'.phase.Keys == s'.status.Keys == c.plan.deps.Keys
    requires forall u :: u in s.phase && u != t ==> s'.phase[u] == s.phase[u] && s'.status[u] == s.status[u]
    requires s.completedSet <= s'.completedSet && AgreeOn(s.completedSet, s.reports, s'.reports)
    requires forall u :: u != t ==>
      (u in s.reports <==> u in s'.reports) && (u in s.reports ==> s.reports[u] == s'.reports[u])
    requires !Passed(s'.phase, t)
    ensures forall u :: u in c.plan.deps && u != t ==> TaskOk(c, s', u)
  {
    forall u | u in c.plan.deps && u != t
      ensures TaskOk(c, s', u)
    {
      assert NoNewPass(s.phase, s'.phase);
      StaysOk(c, s, s', u);
    }
  }

  lemma NotDoneYet(s: State, t: Id)
    requires Bookkeeping(s) && t in s.phase && !Is(InCompleted, s.phase[t])
    ensures t !in s.completedSet
  {
  }

  // ---------------------------------------------------------------- steps of one body

  lemma QueuedMove(s: State, s': State, t: Id)
    requires Queued(s) && t in s.phase && !s.phase[t].Idle? && t in s'.phase && t in s'.status
    requires s'.queue == s.queue && s'.phase == s.phase[t := s'.phase[t]] && !s'.phase[t].Idle?
    requires s'.status == s.status[t := s'.status[t]]
    ensures Queued(s')
  {
  }

  lemma LoopMove(c: Config, s: State, s': State, t: Id)
    requires LoopOk(c, s) && t in s.phase && !s.phase[t].Idle? && !s.phase[t].Finished? && t in s'.phase
    requires s'.loop == s.loop && s'.phase == s.phase[t := s'.phase[t]] && !s'.phase[t].Idle?
    ensures LoopOk(c, s')
  {
    assert s.loop.Batch?;
  }

  /** Only t moves, and only by a step of its own body. */
  ghost predicate OneMoves(s: State, s': State, t: Id) {
    && t in s.phase && t in s'.phase && t in s.status && t in s'.status
    && !s.phase[t].Idle? && !s.phase[t].Finished? && !s'.phase[t].Idle? && !Passed(s'.phase, t)
    && s'.loop == s.loop && s'.queue == s.queue
    && s'.phase == s.phase[t := s'.phase[t]] && s'.status == s.status[t := s'.status[t]]
    && s'.pending == Moved(s.pending, s.phase, InPending, t, s'.phase[t])
    && s'.running == Moved(s.running, s.phase, InRunning, t, s'.phase[t])
    && s'.completed == Moved(s.completed, s.phase, InCompleted, t, s'.phase[t])
    && s'.failed == Moved(s.failed, s.phase, InFailed, t, s'.phase[t])
    && s'.completedSet == Elems(s'.completed) && s.completedSet <= s'.completedSet
    && s'.reports.Keys <= s.reports.Keys + {t}
    && (forall u :: u != t ==>
      (u in s.reports <==> u in s'.reports) && (u in s.reports ==> s.reports[u] == s'.reports[u]))
    && AgreeOn(s.completedSet, s.reports, s'.reports)
  }

  lemma MoveOk(c: Config, s: State, s': State, t: Id)
    requires Inv(c, s) && OneMoves(s, s', t) && Ordered(c, s'.completed) && t in c.plan.deps && TaskOk(c, s', t)
    ensures Inv(c, s')
  {
    hide Bookkeeping, Queued, LoopOk, TaskOk, Ordered, Moved, AgreeOn, Passed;
    BookkeepingMove(s, s', t, s'.phase[t]);
    QueuedMove(s, s', t);
    LoopMove(c, s, s', t);
    OthersStayOk(c, s, s', t);
  }

  lemma Knows(c: Config, s: State, t: Id)
    requires Inv(c, s) && t in s.phase
    ensures TaskOk(c, s, t) && s.completedSet == Elems(s.completed)
  {
    hide TaskOk, Lists, Queued, LoopOk, Ordered;
  }

  lemma StartOk(c: Config, s: State, t: Id)
    requires Inv(c, s) && Enabled(c, s, Start(t))
    ensures Inv(c, Apply(c, s, Start(t)))
  {
    hide Lists, NoDup, TasksOk, Bookkeeping, Queued, LoopOk, Ordered, Held;
    Knows(c, s, t);
    var s' := Apply(c, s, Start(t));
    hide Queued, LoopOk, Ordered, Entries, Ready, Held, Finish;
    assert OneMoves(s, s', t);
    MoveOk(c, s, s', t);
  }

  lemma DispatchOk(c: Config, s: State, t: Id)
    requires Inv(c, s) && Enabled(c, s, Dispatch(t))
    ensures Inv(c, Apply(c, s, Dispatch(t)))
  {
    hide Lists, NoDup, TasksOk, Bookkeeping, Queued, LoopOk, Ordered, Held;
    Knows(c, s, t);
    var s' := Apply(c, s, Dispatch(t));
    hide Queued, LoopOk, Ordered, Entries, Ready, Held, Finish;
    assert OneMoves(s, s', t);
    MoveOk(c, s, s', t);
  }

  lemma SettleOk(c: Config, s: State, t: Id)
    requires Inv(c, s) && Enabled(c, s, Settle(t))
    ensures Inv(c, Apply(c, s, Settle(t)))
  {
    hide Lists, NoDup, TasksOk, Bookkeeping, Queued, LoopOk, Ordered, Held;
    Knows(c, s, t);
    var s' := Apply(c, s, Settle(t));
    hide Queued, LoopOk, Ordered, Entries, Ready, Held;
    assert OneMoves(s, s', t);
    MoveOk(c, s, s', t);
  }

  lemma FinishEnds(c: Config, t: Id, entries: map<Id, Entry>, l: Locals)
    requires !GoesOn(c, l)
    ensures Finish(c, t, entries, l) == l
  {
  }

  lemma LeaveOk(c: Config, s: State, t: Id)
    requires Inv(c, s) && Enabled(c, s, Leave(t))
    ensures Inv(c, Apply(c, s, Leave(t)))
  {
    hide Lists, NoDup, TasksOk, Bookkeeping, Queued, LoopOk, Ordered, Held;
    Knows(c, s, t);
    var s' := Apply(c, s, Leave(t));
    NotDoneYet(s, t);
    assert AgreeOn(s.completedSet, s.reports, s'.reports);
    FinishEnds(c, t, Entries(c.plan.deps[t], s.reports), s.phase[t].l);
    hide Entries, Ready, AgreeOn, Finish, GoesOn, Honest, Moved;
    EntriesStable(c.plan.deps[t], s.completedSet, s.reports, s'.reports);
    assert TaskOk(c, s', t);
    LeaveMoves(c, s, s', t);
    hide TaskOk;
    MoveOk(c, s, s', t);
  }

  lemma LeaveMoves(c: Config, s: State, s': State, t: Id)
    requires Inv(c, s) && Enabled(c, s, Leave(t)) && s' == Apply(c, s, Leave(t))
    requires AgreeOn(s.completedSet, s.reports, s'.reports)
    ensures OneMoves(s, s', t)
  {
    hide Lists, NoDup, TasksOk, Queued, LoopOk, Ordered, Held, AgreeOn;
  }

  lemma RecordOk(c: Config, s: State, t: Id)
    requires Inv(c, s) && Enabled(c, s, Record(t))
    ensures Inv(c, Apply(c, s, Record(t)))
  {
    hide Lists, NoDup, TasksOk, Bookkeeping, Queued, LoopOk, Ordered, Held;
    Knows(c, s, t);
    var s' := Apply(c, s, Record(t));
    assert Elems(s.completed + [t]) == Elems(s.completed) + {t};
    assert Ready(c.plan.deps[t], s'.completedSet);
    hide Queued, LoopOk, Ordered, Entries, Held, Finish, Ready;
    if s.phase[t].l.ok {
      OrderedPush(c, s.completed, t);
    }
    assert OneMoves(s, s', t);
    MoveOk(c, s, s', t);
  }

  lemma OrderedPush(c: Config, completed: seq<Id>, t: Id)
    requires Ordered(c, completed) && t in c.plan.deps && Ready(c.plan.deps[t], Elems(completed))
    ensures Ordered(c, completed + [t])
  {
    var after := completed + [t];
    forall i | 0 <= i < |after|
      ensures after[i] in c.plan.deps && forall d :: d in c.plan.deps[after[i]] ==> d in after[..i]
    {
      if i < |completed| {
        assert after[..i] == completed[..i] && after[i] == completed[i];
      } else {
        assert after[..i] == completed;
      }
    }
  }

  // ---------------------------------------------------------------- steps of the loop

  lemma ListsSame(list: seq<Id>, phase: map<Id, Phase>, phase': map<Id, Phase>, k: Kind)
    requires Lists(list, phase, k) && phase.Keys == phase'.Keys
    requires forall t :: t in phase ==> Is(k, phase[t]) == Is(k, phase'[t])
    ensures Lists(list, phase', k)
  {
  }

  lemma BookkeepingSame(s: State, s': State)
    requires Bookkeeping(s) && s.phase.Keys == s'.phase.Keys
    requires forall t, k :: t in s.phase ==> Is(k, s.phase[t]) == Is(k, s'.phase[t])
    requires s'.pending == s.pending && s'.running == s.running && s'.completed == s.completed
    requires s'.failed == s.failed && s'.completedSet == s.completedSet
    ensures Bookkeeping(s')
  {
    hide Lists;
    ListsSame(s.pending, s.phase, s'.phase, InPending);
    ListsSame(s.running, s.phase, s'.phase, InRunning);
    ListsSame(s.completed, s.phase, s'.phase, InCompleted);
    ListsSame(s.failed, s.phase, s'.phase, InFailed);
  }

  lemma PopPhases(c: Config, s: State, s': State)
    requires s.loop.Head? && Queued(s) && LoopOk(c, s) && c.policy.maxParallelWorkers >= 0
    requires Enabled(c, s, Pop) && s' == Apply(c, s, Pop)
    ensures Queued(s') && LoopOk(c, s') && s'.phase.Keys == s.phase.Keys
    ensures forall t :: t in s.phase ==>
      if t in s'.loop.tasks then s.phase[t].Idle? && s.status[t] == READY && s'.phase[t].Popped?
      else s'.phase[t] == s.phase[t]
  {
    var n := Slots(c, s);
    assert s.queue == s.queue[..n] + s.queue[n..];
    forall t
      ensures t in s.queue[n..] <==> t in s.queue && t !in s.queue[..n]
    {
    }
  }

  lemma PopOk(c: Config, s: State)
    requires c.Valid() && Inv(c, s) && Enabled(c, s, Pop)
    ensures Inv(c, Apply(c, s, Pop))
  {
    hide Lists, NoDup, TaskOk, Bookkeeping, Queued, LoopOk, Ordered, Held, Ready, Entries, Finish;
    var s' := Apply(c, s, Pop);
    PopPhases(c, s, s');
    BookkeepingSame(s, s');
    forall t | t in c.plan.deps
      ensures TaskOk(c, s', t)
    {
      Knows(c, s, t);
      if t in s'.loop.tasks {
        PoppedOk(c, s, s', t);
      } else {
        assert NoNewPass(s.phase, s'.phase);
        assert AgreeOn(s.completedSet, s.reports, s'.reports);
        StaysOk(c, s, s', t);
      }
    }
  }

  lemma PoppedOk(c: Config, s: State, s': State, t: Id)
    requires t in c.plan.deps && t in s.phase && t in s.status && t in s'.phase && t in s'.status && TaskOk(c, s, t)
    requires s.phase[t].Idle? && s.status[t] == READY && s'.phase[t].Popped? && s'.status[t] == READY
    requires s'.reports == s.reports && s'.completedSet == s.completedSet
    ensures TaskOk(c, s', t)
  {
    hide Entries, Finish, Held;
  }

  lemma SameTasksOk(c: Config, s: State, s': State)
    requires s.phase.Keys == s.status.Keys == c.plan.deps.Keys && TasksOk(c, s)
    requires s'.phase == s.phase && s'.status == s.status && s'.reports == s.reports &&
      s'.completedSet == s.completedSet
    ensures TasksOk(c, s')
  {
    forall t | t in c.plan.deps
      ensures TaskOk(c, s', t)
    {
      assert TaskOk(c, s, t);
      StaysOk(c, s, s', t);
    }
  }

  /** With every task completed there is nothing left in the queue. */
  lemma AllCompletedEmptiesQueue(c: Config, s: State)
    requires c.Valid() && s.phase.Keys == c.plan.deps.Keys && Bookkeeping(s) && Queued(s)
    requires |s.completedSet| >= |c.plan.order|
    ensures s.queue == []
  {
    NoDupSize(c.plan.order);
    var ids := c.plan.deps.Keys;
    assert s.completedSet <= ids;
    SubsetSize(s.completedSet, ids);
    assert forall t :: t in s.phase ==> t in s.completedSet;
    assert Elems(s.queue) == {};
    NoMembers(s.queue);
  }

  lemma StopOk(c: Config, s: State)
    requires c.Valid() && Inv(c, s) && Enabled(c, s, Stop)
    ensures Inv(c, Apply(c, s, Stop))
  {
    hide Lists, NoDup, TaskOk, TasksOk, Ordered;
    var s' := Apply(c, s, Stop);
    if |s.completedSet| >= |c.plan.order| {
      AllCompletedEmptiesQueue(c, s);
    }
    SameTasksOk(c, s, s');
  }

  lemma JoinAllOk(c: Config, s: State)
    requires Inv(c, s) && Enabled(c, s, JoinAll)
    ensures Inv(c, Apply(c, s, JoinAll))
  {
    hide Lists, NoDup, TaskOk, TasksOk, Ordered;
    SameTasksOk(c, s, Apply(c, s, JoinAll));
  }

  lemma {:induction false} NewlyReadyFacts(plan: Plan, order: seq<Id>, status: map<Id, TaskStatus>, queue: seq<Id>,
                                           done: set<Id>)
    requires NoDup(order)
    ensures var r := NewlyReady(plan, order, status, queue, done);
      NoDup(r) && forall t :: t in r <==> t in order && Unlockable(plan, status, done, t) && t !in queue
  {
    if order != [] {
      var last := |order| - 1;
      NewlyReadyFacts(plan, order[..last], status, queue, done);
      assert order == order[..last] + [order[last]];
      hide Unlockable;
    }
  }

  lemma UnlockQueued(c: Config, s: State, s': State, t: Id)
    requires c.Valid() && s.phase.Keys == s.status.Keys == c.plan.deps.Keys && Queued(s)
    requires Enabled(c, s, Unlock(t)) && s' == Apply(c, s, Unlock(t)) && s.status[t] == COMPLETED
    requires forall u :: u in s.phase ==> (s.phase[u].Idle? <== s.status[u] == BLOCKED || s.status[u] == PENDING)
    ensures Queued(s')
  {
    NewlyReadyFacts(c.plan, c.plan.order, s.status, s.queue, s.completedSet);
    var ready := NewlyReady(c.plan, c.plan.order, s.status, s.queue, s.completedSet);
    assert forall u :: u in c.plan.order <==> u in Elems(c.plan.order);
    forall u
      ensures u in s.queue + ready <==> u in s'.phase && s'.phase[u].Idle? && s'.status[u] == READY
    {
      BlockedOnly(c.plan, s.status, s.completedSet, u);
      hide Unlockable, NewlyReady, NoDup, Elems;
    }
    hide Unlockable, NewlyReady;
    assert Elems(s.queue) !! Elems(ready);
    ElemsConcat(s.queue, ready);
  }

  lemma BlockedOnly(plan: Plan, status: map<Id, TaskStatus>, done: set<Id>, t: Id)
    ensures Unlockable(plan, status, done, t) ==>
      t in status && t in plan.deps && (status[t] == BLOCKED || status[t] == PENDING) && Ready(plan.deps[t], done)
    ensures t in status && t in plan.deps && status[t] == BLOCKED && Ready(plan.deps[t], done) ==>
      Unlockable(plan, status, done, t)
  {
  }

  lemma BlockedIsIdle(c: Config, s: State, t: Id)
    requires t in c.plan.deps && t in s.phase && t in s.status && TaskOk(c, s, t)
    ensures s.status[t] != PENDING && (s.status[t] == BLOCKED ==> s.phase[t].Idle? && Held(c.plan.deps[t], s.phase))
    ensures s.phase[t].Notifying? ==> s.status[t] == COMPLETED
  {
    hide Entries, Finish, Held, Ready;
  }

  /** A task that stays blocked keeps a dependency that is not completed. */
  lemma StillHeld(s: State, deps: seq<Id>)
    requires Bookkeeping(s) && !Ready(deps, s.completedSet)
    ensures Held(deps, s.phase)
  {
    var d :| d in deps && d !in s.completedSet;
    assert d !in s.completed;
  }

  lemma UnlockOther(c: Config, s: State, s': State, u: Id)
    requires u in c.plan.deps && s.phase.Keys == s.status.Keys == c.plan.deps.Keys && TaskOk(c, s, u)
    requires s'.phase.Keys == s'.status.Keys == c.plan.deps.Keys && Bookkeeping(s')
    requires s'.phase[u] == s.phase[u] && s'.completedSet == s.completedSet && s'.reports == s.reports
    requires s'.status[u] == if Unlockable(c.plan, s.status, s.completedSet, u) then READY else s.status[u]
    ensures TaskOk(c, s', u)
  {
    hide Bookkeeping, Entries, Finish, Unlockable, Ready, Held;
    BlockedIsIdle(c, s, u);
    BlockedOnly(c.plan, s.status, s.completedSet, u);
    if s.status[u] == BLOCKED && !Ready(c.plan.deps[u], s.completedSet) {
      StillHeld(s', c.plan.deps[u]);
    }
  }

  lemma UnlockOk(c: Config, s: State, t: Id)
    requires c.Valid() && Inv(c, s) && Enabled(c, s, Unlock(t))
    ensures Inv(c, Apply(c, s, Unlock(t)))
  {
    hide Lists, NoDup, TaskOk, Bookkeeping, Queued, LoopOk, Ordered, Held, Ready, Entries, Finish, NewlyReady,
      Unlockable;
    var s' := Apply(c, s, Unlock(t));
    Knows(c, s, t);
    NotifyingKnows(c, s, t);
    BookkeepingSame(s, s');
    forall u | u in s.phase
      ensures s.phase[u].Idle? <== s.status[u] == BLOCKED || s.status[u] == PENDING
    {
      Knows(c, s, u);
      BlockedIsIdle(c, s, u);
    }
    UnlockQueued(c, s, s', t);
    LoopMove(c, s, s', t);
    forall u | u in c.plan.deps
      ensures TaskOk(c, s', u)
    {
      Knows(c, s, u);
      if u == t {
        BlockedOnly(c.plan, s.status, s.completedSet, t);
        NotifyingEnds(c, s, s', t);
      } else {
        UnlockOther(c, s, s', u);
      }
    }
  }

  lemma NotifyingKnows(c: Config, s: State, t: Id)
    requires t in c.plan.deps && t in s.phase && t in s.status && TaskOk(c, s, t) && s.phase[t].Notifying?
    ensures s.status[t] == COMPLETED && s.phase[t].l.ok
  {
    hide Entries, Finish, Held, Ready;
  }

  lemma NotifyingEnds(c: Config, s: State, s': State, t: Id)
    requires t in c.plan.deps && t in s.phase && t in s.status && t in s'.phase && t in s'.status && TaskOk(c, s, t)
    requires s.phase[t].Notifying? && s'.phase[t] == Finished(s.phase[t].l) && s'.status[t] == s.status[t]
    requires s'.completedSet == s.completedSet && s'.reports == s.reports
    ensures TaskOk(c, s', t)
  {
    hide Entries, Finish, Held, Ready;
  }

  // ---------------------------------------------------------------- every run

  lemma {:induction false} RootsFacts(plan: Plan, order: seq<Id>)
    requires NoDup(order)
    ensures NoDup(Roots(plan, order))
    ensures forall t :: t in Roots(plan, order) <==> t in order && t in plan.deps && plan.deps[t] == []
  {
    if order != [] {
      var last := |order| - 1;
      RootsFacts(plan, order[..last]);
      assert order == order[..last] + [order[last]];
    }
  }

  lemma InitOk(c: Config)
    requires c.Valid()
    ensures Inv(c, Init(c.plan))
  {
    var s := Init(c.plan);
    RootsFacts(c.plan, c.plan.order);
    assert forall t :: t in c.plan.order <==> t in Elems(c.plan.order);
    forall t | t in c.plan.deps
      ensures TaskOk(c, s, t)
    {
      if c.plan.deps[t] != [] {
        assert c.plan.deps[t][0] in c.plan.deps[t] && !Passed(s.phase, c.plan.deps[t][0]);
      }
    }
  }

  lemma StepKeepsInv(c: Config, s: State, a: Action)
    requires c.Valid() && Inv(c, s) && Enabled(c, s, a)
    ensures Inv(c, Apply(c, s, a))
  {
    hide Inv;
    match a
    case Pop => PopOk(c, s);
    case Stop => StopOk(c, s);
    case JoinAll => JoinAllOk(c, s);
    case Start(t) => StartOk(c, s, t);
    case Dispatch(t) => DispatchOk(c, s, t);
    case Settle(t) => SettleOk(c, s, t);
    case Leave(t) => LeaveOk(c, s, t);
    case Record(t) => RecordOk(c, s, t);
    case Unlock(t) => UnlockOk(c, s, t);
  }

  lemma {:induction false} RunKeepsInv(c: Config, actions: seq<Action>, s: State)
    requires c.Valid() && Run(c, actions, s)
    ensures Inv(c, s)
  {
    hide Inv, Apply, Enabled, Init;
    if actions == [] {
      InitOk(c);
    } else {
      var last := |actions| - 1;
      var before :| Run(c, actions[..last], before) && Enabled(c, before, actions[last]) &&
        s == Apply(c, before, actions[last]);
      RunKeepsInv(c, actions[..last], before);
      StepKeepsInv(c, before, actions[last]);
    }
  }
}
