/**
  The mission loop (mission_execution_orchestrator.ts with ready_task_queue.ts) as a state machine.

  A step is what runs between two awaits.  The bodies of one batch may take their steps in any
  order; the workers, the verifier and the merge are the functions of a World, so that "the same
  outcomes" means "the same World".
*/
module Missions {
  import opened Common

  datatype TaskStatus = PENDING | READY | BLOCKED | RUNNING | COMPLETED | FAILED

  /** `completed` says whether the worker reported the status COMPLETED. */
  datatype Report = Report(completed: bool, workerId: Id, summary: string,
                           filesCreated: seq<string>, filesModified: seq<string>)

  datatype Verification = Verification(success: bool, qualityScore: int, errors: seq<string>, warnings: seq<string>)

  /** A report with its verification, as filed under a task's id. */
  datatype Stored = Stored(report: Report, verification: Option<Verification>)

  datatype Entry = Entry(workerId: Id, summary: string, filesCreated: seq<string>, filesModified: seq<string>)

  /** What a dispatched worker is told: its dependencies' reports and the last failed verification. */
  datatype Handoff = Handoff(entries: map<Id, Entry>, repair: Option<Verification>)

  datatype Dispatched = Dispatched(success: bool, report: Option<Report>)

  /** Outcomes by task and attempt number.  A merge answers with its error, if it has one. */
  datatype World = World(
    dispatch: (Id, nat, Handoff) -> Dispatched,
    verify: (Id, nat, Report) -> Verification,
    merge: (Id, nat) -> Option<string>)

  /** plan.tasks: the ids in plan order and each task's dependency list. */
  datatype Plan = Plan(order: seq<Id>, deps: map<Id, seq<Id>>)

  datatype Policy = Policy(maxParallelWorkers: int, maxTaskRetries: int)

  datatype Config = Config(plan: Plan, policy: Policy, world: World) {
    ghost predicate Valid() {
      NoDup(plan.order) && plan.deps.Keys == Elems(plan.order) && policy.maxParallelWorkers >= 1
    }

    /** How many attempts a task may take. */
    function Budget(): nat {
      if policy.maxTaskRetries < 0 then 0 else policy.maxTaskRetries + 1
    }
  }

  /** A task body's local variables. */
  datatype Locals = Locals(attempt: nat, ok: bool, report: Option<Report>, verification: Option<Verification>)

  const FRESH := Locals(0, false, None, None)

  // ---------------------------------------------------------------- one task body

  function Join(parts: seq<string>): string {
    if parts == [] then "" else if |parts| == 1 then parts[0] else parts[0] + ", " + Join(parts[1..])
  }

  function EntryOf(report: Report): Entry {
    Entry(report.workerId, report.summary, report.filesCreated, report.filesModified)
  }

  function Entries(deps: seq<Id>, reports: map<Id, Stored>): map<Id, Entry> {
    map d | d in deps && d in reports :: EntryOf(reports[d].report)
  }

  function HandoffFor(entries: map<Id, Entry>, l: Locals): Handoff {
    Handoff(entries, if l.verification.Some? && !l.verification.value.success then l.verification else None)
  }

  predicate GoesOn(c: Config, l: Locals) {
    l.attempt <= c.policy.maxTaskRetries && !l.ok
  }

  /** One turn of the retry loop: dispatch, then verify, then merge. */
  function Attempt(w: World, t: Id, entries: map<Id, Entry>, l: Locals): Locals {
    var n := l.attempt + 1;
    var answer := w.dispatch(t, n, HandoffFor(entries, l));
    if answer.success && answer.report.Some? && answer.report.value.completed then
      var report := answer.report.value;
      var v := w.verify(t, n, report);
      if !v.success then
        var summary := report.summary + " [Verification Failed: " + Join(v.errors) + "]";
        Locals(n, false, Some(report.(summary := summary)), Some(v))
      else
        match w.merge(t, n)
        case None => Locals(n, true, Some(report), Some(v))
        case Some(e) =>
          var summary := report.summary + " [Git merge failed: " + e + "]";
          Locals(n, false, Some(report.(summary := summary)), Some(v))
    else
      Locals(n, false, answer.report, l.verification)
  }

  /** The whole retry loop from the locals l, for a fixed hand-off from the dependencies. */
  function Finish(c: Config, t: Id, entries: map<Id, Entry>, l: Locals): Locals
    decreases c.Budget() - l.attempt
  {
    if GoesOn(c, l) then Finish(c, t, entries, Attempt(c.world, t, entries, l)) else l
  }

  function Outcome(c: Config, t: Id, entries: map<Id, Entry>): Locals {
    Finish(c, t, entries, FRESH)
  }

  predicate Honest(l: Locals) {
    l.ok ==> l.report.Some? && l.report.value.completed
  }

  lemma {:induction false} FinishFacts(c: Config, t: Id, entries: map<Id, Entry>, l: Locals)
    requires Honest(l) && l.attempt <= c.Budget()
    ensures var r := Finish(c, t, entries, l);
      Honest(r) && l.attempt <= r.attempt <= c.Budget() && !GoesOn(c, r)
    decreases c.Budget() - l.attempt
  {
    if GoesOn(c, l) {
      FinishFacts(c, t, entries, Attempt(c.world, t, entries, l));
    }
  }

  // ---------------------------------------------------------------- states and steps

  /** Where a task's body stands; a task that has not been popped is Idle. */
  datatype Phase =
    | Idle
    | Popped
    | Looping(l: Locals)
    | InFlight(l: Locals, entries: map<Id, Entry>)
    | Leaving(l: Locals)
    | Notifying(l: Locals)
    | Finished(l: Locals)

  datatype Loop = Head | Batch(tasks: seq<Id>) | Over

  datatype State = State(
    loop: Loop,
    phase: map<Id, Phase>,
    status: map<Id, TaskStatus>,
    queue: seq<Id>,
    pending: seq<Id>,
    running: seq<Id>,
    completed: seq<Id>,
    failed: seq<Id>,
    completedSet: set<Id>,
    reports: map<Id, Stored>)

  predicate Unlockable(plan: Plan, status: map<Id, TaskStatus>, done: set<Id>, t: Id) {
    && t in status && t in plan.deps
    && (status[t] == BLOCKED || status[t] == PENDING)
    && forall d :: d in plan.deps[t] ==> d in done
  }

  /** The unlockable tasks of a stretch of the plan that are not queued yet, in plan order. */
  function NewlyReady(plan: Plan, order: seq<Id>, status: map<Id, TaskStatus>, queue: seq<Id>, done: set<Id>): seq<Id> {
    if order == [] then []
    else
      var t := order[|order| - 1];
      NewlyReady(plan, order[..|order| - 1], status, queue, done) +
        if Unlockable(plan, status, done, t) && t !in queue then [t] else []
  }

  function Unlocked(plan: Plan, status: map<Id, TaskStatus>, done: set<Id>): map<Id, TaskStatus> {
    map t | t in status :: if Unlockable(plan, status, done, t) then READY else status[t]
  }

  /** initializeFromPlan and the fresh mission state. */
  function Init(plan: Plan): State {
    var status := map t | t in plan.deps :: if plan.deps[t] == [] then READY else BLOCKED;
    State(Head, map t | t in plan.deps :: Idle, status, Roots(plan, plan.order), plan.order, [], [], [], {}, map[])
  }

  function Roots(plan: Plan, order: seq<Id>): seq<Id> {
    if order == [] then []
    else
      var t := order[|order| - 1];
      Roots(plan, order[..|order| - 1]) + if t in plan.deps && plan.deps[t] == [] then [t] else []
  }

  datatype Action =
    | Pop | Stop | JoinAll
    | Start(t: Id) | Dispatch(t: Id) | Settle(t: Id) | Leave(t: Id) | Record(t: Id) | Unlock(t: Id)

  /** How many queued tasks the batch loop takes. */
  function Slots(c: Config, s: State): nat {
    var free := c.policy.maxParallelWorkers - |s.running|;
    if free <= 0 then 0 else if free < |s.queue| then free else |s.queue|
  }

  predicate Stopping(c: Config, s: State) {
    |s.completedSet| >= |c.plan.order| || (s.queue == [] && s.running == [])
  }

  ghost predicate Enabled(c: Config, s: State, a: Action) {
    match a
    case Pop => s.loop.Head? && !Stopping(c, s)
    case Stop => s.loop.Head? && Stopping(c, s)
    case JoinAll => s.loop.Batch? && forall t :: t in s.loop.tasks ==> t in s.phase && s.phase[t].Finished?
    case Start(t) => t in s.phase && s.phase[t].Popped?
    case Dispatch(t) => t in s.phase && t in c.plan.deps && s.phase[t].Looping? && GoesOn(c, s.phase[t].l)
    case Settle(t) => t in s.phase && s.phase[t].InFlight?
    case Leave(t) => t in s.phase && s.phase[t].Looping? && !GoesOn(c, s.phase[t].l)
    case Record(t) => t in s.phase && s.phase[t].Leaving?
    case Unlock(t) => t in s.phase && s.phase[t].Notifying?
  }

  ghost function Apply(c: Config, s: State, a: Action): State
    requires Enabled(c, s, a)
  {
    match a
    case Pop =>
      var batch := s.queue[..Slots(c, s)];
      s.(loop := Batch(batch), queue := s.queue[Slots(c, s)..],
         phase := map t | t in s.phase :: if t in batch then Popped else s.phase[t])
    case Stop => s.(loop := Over)
    case JoinAll => s.(loop := if s.failed != [] && s.queue == [] && s.running == [] then Over else Head)
    case Start(t) =>
      s.(phase := s.phase[t := Looping(FRESH)], pending := Without(s.pending, t), running := s.running + [t])
    case Dispatch(t) =>
      s.(phase := s.phase[t := InFlight(s.phase[t].l, Entries(c.plan.deps[t], s.reports))],
        status := s.status[t := RUNNING])
    case Settle(t) => s.(phase := s.phase[t := Looping(Attempt(c.world, t, s.phase[t].entries, s.phase[t].l))])
    case Leave(t) =>
      var l := s.phase[t].l;
      s.(phase := s.phase[t := Leaving(l)], running := Without(s.running, t), reports := File(s.reports, t, l),
         status := s.status[t := if l.ok then COMPLETED else FAILED])
    case Record(t) =>
      var l := s.phase[t].l;
      if l.ok then
        s.(phase := s.phase[t := Notifying(l)], completed := s.completed + [t], completedSet := s.completedSet + {t})
      else
        s.(phase := s.phase[t := Finished(l)], failed := s.failed + [t])
    case Unlock(t) =>
      s.(phase := s.phase[t := Finished(s.phase[t].l)], status := Unlocked(c.plan, s.status, s.completedSet),
         queue := s.queue + NewlyReady(c.plan, c.plan.order, s.status, s.queue, s.completedSet))
  }

  /** reports[t] = lastReport with its verification; an undefined report files nothing. */
  function File(reports: map<Id, Stored>, t: Id, l: Locals): map<Id, Stored> {
    if l.report.Some? then reports[t := Stored(l.report.value, l.verification)] else reports - {t}
  }

  /** s is reached by taking the actions one after the other. */
  ghost predicate Run(c: Config, actions: seq<Action>, s: State) {
    if actions == [] then s == Init(c.plan)
    else
      var last := |actions| - 1;
      exists before :: Run(c, actions[..last], before) && Enabled(c, before, actions[last]) &&
        s == Apply(c, before, actions[last])
  }

  // ---------------------------------------------------------------- the invariant

  datatype Kind = InPending | InRunning | InCompleted | InFailed

  predicate Is(k: Kind, p: Phase) {
    match k
    case InPending => p.Idle? || p.Popped?
    case InRunning => p.Looping? || p.InFlight?
    case InCompleted => p.Notifying? || (p.Finished? && p.l.ok)
    case InFailed => p.Finished? && !p.l.ok
  }

  /** The list holds exactly the tasks of one kind, once each. */
  ghost predicate Lists(list: seq<Id>, phase: map<Id, Phase>, k: Kind) {
    NoDup(list) && forall t :: t in list <==> t in phase && Is(k, phase[t])
  }

  ghost predicate Bookkeeping(s: State) {
    && Lists(s.pending, s.phase, InPending) && Lists(s.running, s.phase, InRunning)
    && Lists(s.completed, s.phase, InCompleted) && Lists(s.failed, s.phase, InFailed)
    && s.completedSet == Elems(s.completed)
  }

  ghost predicate Queued(s: State) {
    && NoDup(s.queue)
    && s.status.Keys == s.phase.Keys
    && forall t :: t in s.queue <==> t in s.phase && s.phase[t].Idle? && s.status[t] == READY
  }

  ghost predicate Ready(deps: seq<Id>, done: set<Id>) {
    forall d :: d in deps ==> d in done
  }

  ghost predicate Passed(phase: map<Id, Phase>, d: Id) {
    d in phase && phase[d].Finished? && phase[d].l.ok
  }

  /** A dependency has not been through its unlock yet. */
  ghost predicate Held(deps: seq<Id>, phase: map<Id, Phase>) {
    exists d :: d in deps && !Passed(phase, d)
  }

  ghost predicate Filed(reports: map<Id, Stored>, t: Id, l: Locals) {
    if l.report.Some? then t in reports && reports[t] == Stored(l.report.value, l.verification) else t !in reports
  }

  ghost predicate OnTrack(c: Config, t: Id, entries: map<Id, Entry>, l: Locals) {
    Honest(l) && l.attempt <= c.Budget() && Finish(c, t, entries, l) == Outcome(c, t, entries)
  }

  /** What is known about one task, by where its body stands. */
  ghost predicate TaskOk(c: Config, s: State, t: Id)
    requires t in s.phase && t in s.status && t in c.plan.deps
  {
    var deps := c.plan.deps[t];
    var entries := Entries(deps, s.reports);
    var done := s.completedSet;
    match s.phase[t]
    case Idle =>
      && t !in s.reports
      && ((s.status[t] == READY && Ready(deps, done)) || (s.status[t] == BLOCKED && Held(deps, s.phase)))
    case Popped =>
      && t !in s.reports && s.status[t] == READY && Ready(deps, done)
    case Looping(l) =>
      && t !in s.reports && s.status[t] in {READY, RUNNING}
      && Ready(deps, done) && OnTrack(c, t, entries, l)
    case InFlight(l, e) =>
      && t !in s.reports && s.status[t] == RUNNING
      && Ready(deps, done) && OnTrack(c, t, entries, l) && e == entries && GoesOn(c, l)
    case Leaving(l) =>
      && Ready(deps, done) && l == Outcome(c, t, entries) && Filed(s.reports, t, l)
      && s.status[t] == (if l.ok then COMPLETED else FAILED)
    case Notifying(l) =>
      && Ready(deps, done) && l == Outcome(c, t, entries) && Filed(s.reports, t, l)
      && s.status[t] == COMPLETED && l.ok
    case Finished(l) =>
      && Ready(deps, done) && l == Outcome(c, t, entries) && Filed(s.reports, t, l)
      && s.status[t] == (if l.ok then COMPLETED else FAILED)
  }

  ghost predicate TasksOk(c: Config, s: State)
    requires s.phase.Keys == s.status.Keys == c.plan.deps.Keys
  {
    forall t :: t in c.plan.deps ==> TaskOk(c, s, t)
  }

  /** Only the tasks of the current batch have a body under way. */
  ghost predicate LoopOk(c: Config, s: State) {
    && (s.loop.Batch? ==>
          && NoDup(s.loop.tasks) && |s.loop.tasks| <= c.policy.maxParallelWorkers
          && forall t :: t in s.loop.tasks ==> t in s.phase && !s.phase[t].Idle?)
    && (forall t :: t in s.phase ==> s.phase[t].Idle? || s.phase[t].Finished? || (s.loop.Batch? && t in s.loop.tasks))
    && (s.loop.Over? ==> s.queue == [])
  }

  /** Every completed task comes after its dependencies in the completed list. */
  ghost predicate Ordered(c: Config, completed: seq<Id>) {
    forall i :: 0 <= i < |completed| ==>
      completed[i] in c.plan.deps && forall d :: d in c.plan.deps[completed[i]] ==> d in completed[..i]
  }

  ghost predicate Inv(c: Config, s: State) {
    && s.phase.Keys == s.status.Keys == c.plan.deps.Keys
    && s.reports.Keys <= c.plan.deps.Keys
    && Bookkeeping(s) && Queued(s) && TasksOk(c, s) && LoopOk(c, s) && Ordered(c, s.completed)
  }
}
