/**
  One reasoning request at a time per worker (reasoning_coordinator.ts, worker.ts): check, await the
  plugin selection, then begin.  A step is what runs between two awaits.
*/
module Reasoning {
  import opened Common

  datatype ProcessState = STARTING | IDLE | BUSY | PAUSED | CRASHED | STOPPED | QUARANTINED

  datatype TaskOutcome = COMPLETED | FAILED | INTERRUPTED

  datatype Execution = Execution(requestId: Id, taskId: Id)

  datatype HistoryEntry = HistoryEntry(taskId: Id, outcome: TaskOutcome, tokenUsage: nat)

  // ---------------------------------------------------------------- the worker

  const MAX_HISTORY_PER_WORKER := 25

  datatype WorkerState = WorkerState(active: Option<Execution>, process: ProcessState, tokenUsageTotal: nat,
                                     history: seq<HistoryEntry>)

  /** beginExecution: the single-flight check; None is its exception. */
  function Begun(w: WorkerState, execution: Execution): Option<WorkerState> {
    if w.active.Some? then None else Some(w.(active := Some(execution), process := BUSY))
  }

  function Truncated(history: seq<HistoryEntry>): seq<HistoryEntry> {
    if |history| > MAX_HISTORY_PER_WORKER then history[..MAX_HISTORY_PER_WORKER] else history
  }

  /** completeExecution: ends whatever execution is active; nothing to do when there is none. */
  function Completed(w: WorkerState, outcome: TaskOutcome, tokenUsage: nat): WorkerState {
    if w.active.None? then w
    else
      WorkerState(None, if w.process == BUSY then IDLE else w.process, w.tokenUsageTotal + tokenUsage,
                  Truncated([HistoryEntry(w.active.value.taskId, outcome, tokenUsage)] + w.history))
  }

  function Newest(log: seq<HistoryEntry>): seq<HistoryEntry> {
    if log == [] then [] else [log[|log| - 1]] + Newest(log[..|log| - 1])
  }

  function TokenSum(log: seq<HistoryEntry>): nat {
    if log == [] then 0 else TokenSum(log[..|log| - 1]) + log[|log| - 1].tokenUsage
  }

  /** The worker's record of a log of completions: the newest 25, newest first, and all their tokens. */
  ghost predicate Records(w: WorkerState, log: seq<HistoryEntry>) {
    w.history == Truncated(Newest(log)) && w.tokenUsageTotal == TokenSum(log)
  }

  lemma CompletedRecords(w: WorkerState, log: seq<HistoryEntry>, outcome: TaskOutcome, tokenUsage: nat)
    requires Records(w, log) && w.active.Some?
    ensures Records(Completed(w, outcome, tokenUsage), log + [HistoryEntry(w.active.value.taskId, outcome, tokenUsage)])
  {
    var e := HistoryEntry(w.active.value.taskId, outcome, tokenUsage);
    assert (log + [e])[..|log|] == log;
    assert Truncated([e] + Truncated(Newest(log))) == Truncated([e] + Newest(log));
  }

  class Worker {
    const id: Id
    var activeExecution: Option<Execution>
    var processState: ProcessState
    var tokenUsageTotal: nat
    var history: seq<HistoryEntry>
    /** Every completion since the worker was created. */
    ghost var log: seq<HistoryEntry>

    ghost function View(): WorkerState
      reads this
    {
      WorkerState(activeExecution, processState, tokenUsageTotal, history)
    }

    ghost predicate Valid()
      reads this
    {
      Records(View(), log)
    }

    constructor (id: Id)
      ensures this.id == id && Valid() && log == [] && View() == WorkerState(None, STARTING, 0, [])
    {
      this.id := id;
      activeExecution, processState, tokenUsageTotal, history := None, STARTING, 0, [];
      log := [];
    }

    method BeginExecution(execution: Execution) returns (thrown: bool)
      requires Valid()
      modifies this
      ensures Valid() && log == old(log)
      ensures thrown <==> Begun(old(View()), execution).None?
      ensures View() == if thrown then old(View()) else Begun(old(View()), execution).value
    {
      if activeExecution.Some? {
        return true;
      }
      activeExecution := Some(execution);
      processState := BUSY;
      thrown := false;
    }

    method CompleteExecution(outcome: TaskOutcome, tokenUsage: nat)
      requires Valid()
      modifies this
      ensures Valid() && View() == Completed(old(View()), outcome, tokenUsage)
      ensures old(activeExecution).None? ==> log == old(log)
      ensures old(activeExecution).Some? ==>
        log == old(log) + [HistoryEntry(old(activeExecution).value.taskId, outcome, tokenUsage)]
    {
      if activeExecution.None? {
        return;
      }
      CompletedRecords(View(), log, outcome, tokenUsage);
      var entry := HistoryEntry(activeExecution.value.taskId, outcome, tokenUsage);
      activeExecution := None;
      processState := if processState == BUSY then IDLE else processState;
      tokenUsageTotal := tokenUsageTotal + tokenUsage;
      history := [entry] + history;
      if |history| > MAX_HISTORY_PER_WORKER {
        history := history[..MAX_HISTORY_PER_WORKER];
      }
      log := log + [entry];
    }
  }

  // ---------------------------------------------------------------- the coordinator's steps

  const MAX_CONCURRENT_REQUESTS := 5

  datatype Request = Request(requestId: Id, workerId: Id, taskId: Id)

  /** Where a call of requestReasoning stands. */
  datatype Phase = Selecting | Executing | Returned(success: bool) | Thrown

  datatype Call = Call(request: Request, phase: Phase)

  /** `cancels` holds the executions that cancelForWorker calls under way have read. */
  datatype State = State(workers: map<Id, WorkerState>, activeRequests: map<Id, Request>, calls: seq<Call>,
                         cancels: seq<(Id, Execution)>)

  datatype Step =
    | RequestReasoning(request: Request)
    | Selected(call: nat, found: bool)
    | SelectionThrew(call: nat)
    | Executed(call: nat, success: bool, tokenUsage: nat)
    | CancelReasoning(requestId: Id)
    | CancelForWorker(workerId: Id)
    | PluginCancelled(cancel: nat)

  predicate Enabled(s: State, e: Step) {
    match e
    case RequestReasoning(_) => true
    case Selected(i, _) => i < |s.calls| && s.calls[i].phase.Selecting?
    case SelectionThrew(i) => i < |s.calls| && s.calls[i].phase.Selecting?
    case Executed(i, _, _) => i < |s.calls| && s.calls[i].phase.Executing?
    case CancelReasoning(_) => true
    case CancelForWorker(_) => true
    case PluginCancelled(k) => k < |s.cancels|
  }

  predicate Busy(s: State, workerId: Id) {
    workerId in s.workers && s.workers[workerId].active.Some?
  }

  function WithPhase(calls: seq<Call>, i: nat, p: Phase): seq<Call>
    requires i < |calls|
  {
    calls[i := calls[i].(phase := p)]
  }

  function Apply(s: State, e: Step): State
    requires Enabled(s, e)
  {
    match e
    case RequestReasoning(r) =>
      if |s.activeRequests| >= MAX_CONCURRENT_REQUESTS || Busy(s, r.workerId) then
        s.(calls := s.calls + [Call(r, Returned(false))])
      else
        s.(activeRequests := s.activeRequests[r.requestId := r], calls := s.calls + [Call(r, Selecting)])
    case Selected(i, found) =>
      var r := s.calls[i].request;
      if !found then
        s.(activeRequests := s.activeRequests - {r.requestId}, calls := WithPhase(s.calls, i, Returned(false)))
      else if r.workerId !in s.workers then
        s.(calls := WithPhase(s.calls, i, Executing))
      else
        (match Begun(s.workers[r.workerId], Execution(r.requestId, r.taskId))
         case None => s.(calls := WithPhase(s.calls, i, Thrown))
         case Some(w) => s.(workers := s.workers[r.workerId := w], calls := WithPhase(s.calls, i, Executing)))
    case SelectionThrew(i) => s.(calls := WithPhase(s.calls, i, Thrown))
    case Executed(i, success, tokenUsage) =>
      var r := s.calls[i].request;
      s.(activeRequests := s.activeRequests - {r.requestId},
         workers := if r.workerId in s.workers
                    then s.workers[r.workerId := Completed(s.workers[r.workerId],
                                                           if success then COMPLETED else FAILED, tokenUsage)]
                    else s.workers,
         calls := WithPhase(s.calls, i, Returned(success)))
    case CancelReasoning(id) => s.(activeRequests := s.activeRequests - {id})
    case CancelForWorker(w) =>
      if Busy(s, w) then s.(cancels := s.cancels + [(w, s.workers[w].active.value)]) else s
    case PluginCancelled(k) =>
      var (w, execution) := s.cancels[k];
      s.(activeRequests := s.activeRequests - {execution.requestId},
         workers := if w in s.workers then s.workers[w := Completed(s.workers[w], INTERRUPTED, 0)] else s.workers,
         cancels := s.cancels[..k] + s.cancels[k + 1..])
  }

  function Start(workers: map<Id, WorkerState>): State {
    State(workers, map[], [], [])
  }

  ghost predicate AllIdle(workers: map<Id, WorkerState>) {
    forall w :: w in workers ==> workers[w].active.None?
  }

  /** s is reached from idle workers by taking the steps one after the other. */
  ghost predicate Reaches(workers: map<Id, WorkerState>, steps: seq<Step>, s: State) {
    if steps == [] then s == Start(workers)
    else
      var last := |steps| - 1;
      exists before :: Reaches(workers, steps[..last], before) && Enabled(before, steps[last]) &&
        s == Apply(before, steps[last])
  }

  // The three steps of a call, field by field.

  lemma RequestApplies(s: State, r: Request)
    ensures var s' := Apply(s, RequestReasoning(r));
      && s'.cancels == s.cancels && s'.workers == s.workers && |s'.calls| == |s.calls| + 1
      && s'.calls == s.calls + [s'.calls[|s.calls|]] && s'.calls[|s.calls|].request == r
      && (if |s.activeRequests| >= MAX_CONCURRENT_REQUESTS || Busy(s, r.workerId) then
            s'.activeRequests == s.activeRequests && s'.calls[|s.calls|].phase == Returned(false)
          else
            s'.activeRequests == s.activeRequests[r.requestId := r] && s'.calls[|s.calls|].phase == Selecting)
  {
  }

  lemma SelectedApplies(s: State, i: nat, found: bool)
    requires Enabled(s, Selected(i, found))
    ensures var r, s' := s.calls[i].request, Apply(s, Selected(i, found));
      && s'.cancels == s.cancels && s'.workers.Keys == s.workers.Keys
      && s'.activeRequests == (if found then s.activeRequests else s.activeRequests - {r.requestId})
      && (forall w :: w in s.workers && (w != r.workerId || !found) ==> s'.workers[w] == s.workers[w])
      && (if found && r.workerId in s.workers then
            var begun := Begun(s.workers[r.workerId], Execution(r.requestId, r.taskId));
            && s'.workers[r.workerId] == (if begun.None? then s.workers[r.workerId] else begun.value)
            && s'.calls == WithPhase(s.calls, i, if begun.None? then Thrown else Executing)
          else
            s'.calls == WithPhase(s.calls, i, if found then Executing else Returned(false)))
  {
  }

  lemma ThrewApplies(s: State, i: nat)
    requires Enabled(s, SelectionThrew(i))
    ensures Apply(s, SelectionThrew(i)) == s.(calls := WithPhase(s.calls, i, Thrown))
  {
  }

  lemma ExecutedApplies(s: State, i: nat, success: bool, tokenUsage: nat)
    requires Enabled(s, Executed(i, success, tokenUsage))
    ensures var r, s' := s.calls[i].request, Apply(s, Executed(i, success, tokenUsage));
      && s'.cancels == s.cancels && s'.workers.Keys == s.workers.Keys
      && s'.activeRequests == s.activeRequests - {r.requestId}
      && s'.calls == WithPhase(s.calls, i, Returned(success))
      && forall w :: w in s.workers ==>
           s'.workers[w] == if w == r.workerId
                            then Completed(s.workers[w], if success then COMPLETED else FAILED, tokenUsage)
                            else s.workers[w]
  {
  }

  lemma PluginCancelApplies(s: State, k: nat)
    requires Enabled(s, PluginCancelled(k))
    ensures var (worker, execution), s' := s.cancels[k], Apply(s, PluginCancelled(k));
      && s'.calls == s.calls && s'.workers.Keys == s.workers.Keys
      && s'.cancels == s.cancels[..k] + s.cancels[k + 1..]
      && s'.activeRequests == s.activeRequests - {execution.requestId}
      && forall w :: w in s.workers ==>
           s'.workers[w] == if w == worker then Completed(s.workers[w], INTERRUPTED, 0) else s.workers[w]
  {
  }

  // ---------------------------------------------------------------- the size bound

  /** With every kind of cancellation allowed, the table never outgrows the limit. */
  lemma {:induction false} TableIsBounded(workers: map<Id, WorkerState>, steps: seq<Step>, s: State)
    requires Reaches(workers, steps, s)
    ensures |s.activeRequests| <= MAX_CONCURRENT_REQUESTS == 5
  {
    if steps != [] {
      hide Enabled, Apply;
      var last := |steps| - 1;
      var before :| Reaches(workers, steps[..last], before) && Enabled(before, steps[last]) &&
        s == Apply(before, steps[last]);
      TableIsBounded(workers, steps[..last], before);
      StepKeepsBound(before, steps[last]);
    }
  }

  lemma StepKeepsBound(s: State, e: Step)
    requires Enabled(s, e) && |s.activeRequests| <= MAX_CONCURRENT_REQUESTS
    ensures |Apply(s, e).activeRequests| <= MAX_CONCURRENT_REQUESTS
  {
    var s' := Apply(s, e);
    TableShape(s, e);
    hide Apply, Enabled;
    assert |s.activeRequests| == |s.activeRequests.Keys| && |s'.activeRequests| == |s'.activeRequests.Keys|;
    if s'.activeRequests.Keys <= s.activeRequests.Keys {
      SubsetSize(s'.activeRequests.Keys, s.activeRequests.Keys);
    }
  }

  /** A step that adds to the table found it below the limit. */
  lemma TableShape(s: State, e: Step)
    requires Enabled(s, e)
    ensures var keys, keys' := s.activeRequests.Keys, Apply(s, e).activeRequests.Keys;
      || keys' <= keys
      || (e.RequestReasoning? && keys' == keys + {e.request.requestId} && |s.activeRequests| < MAX_CONCURRENT_REQUESTS)
  {
    hide Begun, WithPhase, Busy, Apply, Completed;
    match e {
      case RequestReasoning(r) => RequestApplies(s, r);
      case Selected(i, found) => SelectedApplies(s, i, found);
      case SelectionThrew(i) => ThrewApplies(s, i);
      case Executed(i, success, tokenUsage) => ExecutedApplies(s, i, success, tokenUsage);
      case CancelReasoning(_) => CancelApplies(s, e);
      case CancelForWorker(_) => CancelApplies(s, e);
      case PluginCancelled(_) => CancelApplies(s, e);
    }
  }

  lemma CancelApplies(s: State, e: Step)
    requires Enabled(s, e) && (e.CancelReasoning? || e.CancelForWorker? || e.PluginCancelled?)
    ensures Apply(s, e).activeRequests.Keys <= s.activeRequests.Keys && Apply(s, e).workers.Keys == s.workers.Keys
    ensures e.CancelReasoning? ==> Apply(s, e).cancels == s.cancels
  {
    hide Completed, Busy;
  }

  // ---------------------------------------------------------------- single flight

  /** Whenever cancelForWorker is called, its worker has no execution. */
  ghost predicate CancelsOnlyIdle(workers: map<Id, WorkerState>, steps: seq<Step>) {
    forall i, s :: 0 <= i < |steps| && steps[i].CancelForWorker? && Reaches(workers, steps[..i], s) ==>
      !Busy(s, steps[i].workerId)
  }

  ghost predicate RunsFor(s: State, i: nat, w: Id) {
    i < |s.calls| && s.calls[i].phase.Executing? && s.calls[i].request.workerId == w
  }

  ghost predicate Names(s: State, i: nat, w: Id)
    requires w in s.workers && i < |s.calls|
  {
    s.workers[w].active == Some(Execution(s.calls[i].request.requestId, s.calls[i].request.taskId))
  }

  /** An idle worker has no call executing; a busy one has exactly the call it names. */
  ghost predicate OneFlight(s: State, w: Id)
    requires w in s.workers
  {
    && (forall i :: RunsFor(s, i, w) ==> Names(s, i, w))
    && (forall i, j :: RunsFor(s, i, w) && RunsFor(s, j, w) ==> i == j)
    && (s.workers[w].active.Some? ==> exists i :: RunsFor(s, i, w))
  }

  ghost predicate Flights(workers: map<Id, WorkerState>, s: State) {
    s.cancels == [] && s.workers.Keys == workers.Keys && forall w :: w in s.workers ==> OneFlight(s, w)
  }

  /**
    Single flight: in every interleaving in which cancelForWorker is called for idle workers only, at
    most one request per registered worker is between beginExecution and completeExecution, and
    activeExecution names it.
  */
  lemma {:induction false} SingleFlight(workers: map<Id, WorkerState>, steps: seq<Step>, s: State)
    requires AllIdle(workers) && Reaches(workers, steps, s) && CancelsOnlyIdle(workers, steps)
    ensures Flights(workers, s)
  {
    if steps != [] {
      hide Enabled, Apply, Flights, Busy;
      var last := |steps| - 1;
      var before :| Reaches(workers, steps[..last], before) && Enabled(before, steps[last]) &&
        s == Apply(before, steps[last]);
      assert forall i :: 0 <= i < last ==> steps[..last][..i] == steps[..i];
      SingleFlight(workers, steps[..last], before);
      if steps[last].CancelForWorker? {
        IdleCancelDoesNothing(before, steps[last].workerId);
      } else {
        StepKeepsFlights(workers, before, steps[last]);
      }
    }
  }

  lemma IdleCancelDoesNothing(s: State, w: Id)
    requires !Busy(s, w)
    ensures Apply(s, CancelForWorker(w)) == s
  {
  }

  lemma StepKeepsFlights(workers: map<Id, WorkerState>, s: State, e: Step)
    requires Flights(workers, s) && Enabled(s, e) && !e.CancelForWorker?
    ensures Flights(workers, Apply(s, e))
  {
    var s' := Apply(s, e);
    StepKeepsWorkers(s, e);
    forall w | w in s.workers
      ensures OneFlight(s', w)
    {
      StepKeepsOneFlight(s, e, w);
    }
    hide OneFlight, Apply, Enabled;
  }

  lemma StepKeepsWorkers(s: State, e: Step)
    requires Enabled(s, e)
    ensures Apply(s, e).workers.Keys == s.workers.Keys
    ensures s.cancels == [] && !e.CancelForWorker? ==> Apply(s, e).cancels == []
  {
    hide Begun, Completed, WithPhase, Busy, Apply;
    match e {
      case RequestReasoning(r) => RequestApplies(s, r);
      case Selected(i, found) => SelectedApplies(s, i, found);
      case SelectionThrew(i) => ThrewApplies(s, i);
      case Executed(i, success, tokenUsage) => ExecutedApplies(s, i, success, tokenUsage);
      case CancelReasoning(_) => CancelApplies(s, e);
      case CancelForWorker(_) => CancelApplies(s, e);
      case PluginCancelled(k) => PluginCancelApplies(s, k);
    }
  }

  lemma StepKeepsOneFlight(s: State, e: Step, w: Id)
    requires w in s.workers && OneFlight(s, w) && Enabled(s, e) && !e.CancelForWorker? && !e.PluginCancelled?
    ensures w in Apply(s, e).workers && OneFlight(Apply(s, e), w)
  {
    var s' := Apply(s, e);
    match e {
      case RequestReasoning(r) =>
        assert forall i :: RunsFor(s', i, w) <==> RunsFor(s, i, w);
      case Selected(i, found) =>
        assert forall j :: j != i ==> (RunsFor(s', j, w) <==> RunsFor(s, j, w));
        if s.workers[w].active.Some? {
          var j :| RunsFor(s, j, w);
          assert RunsFor(s', j, w) && s'.workers[w] == s.workers[w];
        } else if s'.workers[w].active.Some? {
          assert RunsFor(s', i, w);
        }
      case SelectionThrew(i) =>
        assert forall j :: RunsFor(s', j, w) <==> RunsFor(s, j, w);
      case Executed(i, _, _) =>
        assert forall j :: j != i ==> (RunsFor(s', j, w) <==> RunsFor(s, j, w));
        if s.calls[i].request.workerId == w {
          assert RunsFor(s, i, w);
        } else if s.workers[w].active.Some? {
          var j :| RunsFor(s, j, w);
          assert RunsFor(s', j, w);
        }
      case CancelReasoning(_) =>
        assert forall i :: RunsFor(s', i, w) <==> RunsFor(s, i, w);
    }
  }

  /**
    Why the lemma above excludes cancelling a busy worker: completeExecution is not keyed by request.
    From every reachable single-flight state with a busy worker, cancelling it and dropping one entry
    of the table lets a second request execute beside the first.
  */
  lemma BusyCancelAdmitsSecond(workers: map<Id, WorkerState>, steps: seq<Step>, s: State, w: Id, i: nat, r: Request)
    requires AllIdle(workers) && Reaches(workers, steps, s) && CancelsOnlyIdle(workers, steps)
    requires w in s.workers && RunsFor(s, i, w) && r.workerId == w
    ensures exists id, s' ::
      && FromTo(s, CancelAndRequest(w, id, r, |s.calls|), s')
      && RunsFor(s', i, w) && RunsFor(s', |s.calls|, w) && i != |s.calls|
  {
    SingleFlight(workers, steps, s);
    TableIsBounded(workers, steps, s);
    assert OneFlight(s, w) && Names(s, i, w) && s.cancels == [];
    hide Reaches, CancelsOnlyIdle, Flights, OneFlight, Apply, Enabled, FromTo;
    var id, d := CancelThenRequest(s, w, i, r);
  }

  /** Cancel the worker, drop a table entry, then send a request that becomes call n. */
  function CancelAndRequest(w: Id, id: Id, r: Request, n: nat): seq<Step> {
    [CancelForWorker(w), PluginCancelled(0), CancelReasoning(id), RequestReasoning(r), Selected(n, true)]
  }

  lemma CancelThenRequest(s: State, w: Id, i: nat, r: Request) returns (id: Id, d: State)
    requires w in s.workers && RunsFor(s, i, w) && s.workers[w].active.Some? && s.cancels == [] && r.workerId == w
    requires |s.activeRequests| <= MAX_CONCURRENT_REQUESTS
    ensures FromTo(s, CancelAndRequest(w, id, r, |s.calls|), d)
    ensures RunsFor(d, i, w) && RunsFor(d, |s.calls|, w) && i != |s.calls|
  {
    hide Apply, Enabled, Begun, Completed, FromTo;
    var n := |s.calls|;
    var b := CancelFrees(s, w, i);
    var b';
    id, b' := MakeRoom(b);
    d := IdleWorkerStarts(b', w, i, r);
    var two := [RequestReasoning(r), Selected(n, true)];
    FromToStep(b, CancelReasoning(id), two, d);
    FromToStep(Apply(s, CancelForWorker(w)), PluginCancelled(0), [CancelReasoning(id)] + two, d);
    FromToStep(s, CancelForWorker(w), [PluginCancelled(0)] + ([CancelReasoning(id)] + two), d);
    assert [CancelForWorker(w)] + ([PluginCancelled(0)] + ([CancelReasoning(id)] + two)) ==
           CancelAndRequest(w, id, r, n);
  }

  /** Dropping one entry, if there is any, leaves the table below its limit. */
  lemma MakeRoom(b: State) returns (id: Id, b': State)
    requires |b.activeRequests| <= MAX_CONCURRENT_REQUESTS
    ensures Enabled(b, CancelReasoning(id)) && b' == Apply(b, CancelReasoning(id))
    ensures b'.calls == b.calls && b'.workers == b.workers && |b'.activeRequests| < MAX_CONCURRENT_REQUESTS
  {
    id := Id("");
    if b.activeRequests.Keys != {} {
      id :| id in b.activeRequests.Keys;
    }
    b' := Apply(b, CancelReasoning(id));
    assert b'.activeRequests.Keys == b.activeRequests.Keys - {id};
    assert |b.activeRequests| == |b.activeRequests.Keys| && |b'.activeRequests| == |b'.activeRequests.Keys|;
  }

  /**
    Without dropping an entry the same continuation exists if and only if the table has room once the
    cancelled request is out of it.
  */
  lemma WorkerCancelAdmitsSecond(workers: map<Id, WorkerState>, s: State, w: Id, i: nat, r: Request)
    requires Flights(workers, s) && w in s.workers && RunsFor(s, i, w) && r.workerId == w
    ensures |s.activeRequests.Keys - {s.calls[i].request.requestId}| < MAX_CONCURRENT_REQUESTS <==>
      exists s' ::
        && FromTo(s, [CancelForWorker(w), PluginCancelled(0), RequestReasoning(r), Selected(|s.calls|, true)], s')
        && RunsFor(s', i, w) && RunsFor(s', |s.calls|, w) && i != |s.calls|
  {
    assert OneFlight(s, w) && Names(s, i, w) && s.cancels == [];
    hide Flights, OneFlight, Apply, Enabled, Begun, Completed;
    var n := |s.calls|;
    var b := CancelFrees(s, w, i);
    var rest := [RequestReasoning(r), Selected(n, true)];
    assert [CancelForWorker(w)] + ([PluginCancelled(0)] + rest) ==
           [CancelForWorker(w), PluginCancelled(0), RequestReasoning(r), Selected(n, true)];
    if |b.activeRequests| < MAX_CONCURRENT_REQUESTS {
      var d := IdleWorkerStarts(b, w, i, r);
      FromToStep(Apply(s, CancelForWorker(w)), PluginCancelled(0), rest, d);
      FromToStep(s, CancelForWorker(w), [PluginCancelled(0)] + rest, d);
    } else if s' :| FromTo(s, [CancelForWorker(w)] + ([PluginCancelled(0)] + rest), s') {
      FromToRest(s, CancelForWorker(w), [PluginCancelled(0)] + rest, s');
      FromToRest(Apply(s, CancelForWorker(w)), PluginCancelled(0), rest, s');
      FullTableRejects(b, r, s');
    }
  }

  lemma FromToRest(s: State, e: Step, steps: seq<Step>, s': State)
    requires FromTo(s, [e] + steps, s')
    ensures Enabled(s, e) && FromTo(Apply(s, e), steps, s')
  {
    assert ([e] + steps)[1..] == steps;
  }

  /** With a full table the request is answered at once, so it never reaches its plugin selection. */
  lemma FullTableRejects(b: State, r: Request, s': State)
    requires |b.activeRequests| >= MAX_CONCURRENT_REQUESTS
    ensures !FromTo(b, [RequestReasoning(r), Selected(|b.calls|, true)], s')
  {
    assert [RequestReasoning(r), Selected(|b.calls|, true)][1..] == [Selected(|b.calls|, true)];
    var c := Apply(b, RequestReasoning(r));
    assert !Enabled(c, Selected(|b.calls|, true));
  }

  /** Cancelling clears activeExecution, but the call itself is still executing. */
  lemma CancelFrees(s: State, w: Id, i: nat) returns (b: State)
    requires w in s.workers && RunsFor(s, i, w) && s.workers[w].active.Some? && s.cancels == []
    ensures Enabled(s, CancelForWorker(w)) && Enabled(Apply(s, CancelForWorker(w)), PluginCancelled(0))
    ensures b == Apply(Apply(s, CancelForWorker(w)), PluginCancelled(0))
    ensures b.calls == s.calls && w in b.workers && b.workers[w].active.None?
    ensures b.activeRequests.Keys == s.activeRequests.Keys - {s.workers[w].active.value.requestId}
    ensures |b.activeRequests| == |b.activeRequests.Keys| <= |s.activeRequests|
  {
    var a := Apply(s, CancelForWorker(w));
    b := Apply(a, PluginCancelled(0));
    SubsetSize(b.activeRequests.Keys, s.activeRequests.Keys);
    assert |s.activeRequests| == |s.activeRequests.Keys| && |b.activeRequests| == |b.activeRequests.Keys|;
  }

  /** An idle registered worker takes the next request, whatever calls are executing for it. */
  lemma IdleWorkerStarts(b: State, w: Id, i: nat, r: Request) returns (d: State)
    requires w in b.workers && b.workers[w].active.None? && |b.activeRequests| < MAX_CONCURRENT_REQUESTS
    requires r.workerId == w && RunsFor(b, i, w)
    ensures FromTo(b, [RequestReasoning(r), Selected(|b.calls|, true)], d)
    ensures RunsFor(d, i, w) && RunsFor(d, |b.calls|, w) && i != |b.calls|
  {
    var c := Apply(b, RequestReasoning(r));
    d := Apply(c, Selected(|b.calls|, true));
    FromToStep(c, Selected(|b.calls|, true), [], d);
    FromToStep(b, RequestReasoning(r), [Selected(|b.calls|, true)], d);
  }

  ghost predicate FromTo(s: State, steps: seq<Step>, s': State)
    decreases |steps|
  {
    if steps == [] then s == s' else Enabled(s, steps[0]) && FromTo(Apply(s, steps[0]), steps[1..], s')
  }

  lemma FromToStep(s: State, e: Step, steps: seq<Step>, s': State)
    requires Enabled(s, e) && FromTo(Apply(s, e), steps, s')
    ensures FromTo(s, [e] + steps, s')
  {
    assert ([e] + steps)[1..] == steps;
  }

  // ---------------------------------------------------------------- what callers and workers are told

  /** A request is turned down at once exactly when five are in the table or its worker is executing. */
  lemma TurnedDownIff(s: State, r: Request)
    ensures var s' := Apply(s, RequestReasoning(r));
      && |s'.calls| == |s.calls| + 1 && s'.calls[|s.calls|].request == r && s'.calls[..|s.calls|] == s.calls
      && s'.workers == s.workers
      && if |s.activeRequests| >= 5 || (r.workerId in s.workers && s.workers[r.workerId].active.Some?) then
           s'.calls[|s.calls|].phase == Returned(false) && s'.activeRequests == s.activeRequests
         else
           s'.calls[|s.calls|].phase == Selecting && s'.activeRequests == s.activeRequests[r.requestId := r]
  {
    RequestApplies(s, r);
    hide Apply;
    assert Apply(s, RequestReasoning(r)).calls[..|s.calls|] == s.calls;
  }

  /** A worker that has an execution is BUSY, whatever is cancelled. */
  lemma {:induction false} ExecutingIsBusy(workers: map<Id, WorkerState>, steps: seq<Step>, s: State, w: Id)
    requires AllIdle(workers) && Reaches(workers, steps, s) && w in s.workers && s.workers[w].active.Some?
    ensures s.workers[w].process == BUSY
  {
    if steps != [] {
      var last := |steps| - 1;
      var before :| Reaches(workers, steps[..last], before) && Enabled(before, steps[last]) &&
        s == Apply(before, steps[last]);
      hide Reaches, Apply, Enabled;
      StepKeepsWorkers(before, steps[last]);
      if before.workers[w].active.Some? {
        ExecutingIsBusy(workers, steps[..last], before, w);
      }
      StepKeepsBusy(before, steps[last], w);
    }
  }

  lemma StepKeepsBusy(s: State, e: Step, w: Id)
    requires Enabled(s, e) && w in s.workers && (s.workers[w].active.Some? ==> s.workers[w].process == BUSY)
    ensures w in Apply(s, e).workers
    ensures Apply(s, e).workers[w].active.Some? ==> Apply(s, e).workers[w].process == BUSY
  {
    hide Apply, WithPhase, Truncated, Busy;
    match e {
      case RequestReasoning(r) => RequestApplies(s, r);
      case Selected(i, found) => SelectedApplies(s, i, found);
      case SelectionThrew(i) => ThrewApplies(s, i);
      case Executed(i, success, tokenUsage) => ExecutedApplies(s, i, success, tokenUsage);
      case CancelReasoning(_) => CancelTouchesNobody(s, e);
      case CancelForWorker(_) => CancelTouchesNobody(s, e);
      case PluginCancelled(k) => PluginCancelApplies(s, k);
    }
  }

  lemma CancelTouchesNobody(s: State, e: Step)
    requires e.CancelReasoning? || e.CancelForWorker?
    ensures Apply(s, e).workers == s.workers && Apply(s, e).calls == s.calls
  {
    hide Busy;
  }

  /** The newest entry of a history of at most 25, with the older ones behind it. */
  ghost predicate Unshifted(history: seq<HistoryEntry>, entry: HistoryEntry, older: seq<HistoryEntry>) {
    && history != [] && history[0] == entry
    && history[1..] == if |older| < 25 then older else older[..24]
  }

  lemma CompletedMeans(w: WorkerState, outcome: TaskOutcome, tokenUsage: nat)
    requires w.active.Some?
    ensures var w' := Completed(w, outcome, tokenUsage);
      && Unshifted(w'.history, HistoryEntry(w.active.value.taskId, outcome, tokenUsage), w.history)
      && w'.active.None? && w'.tokenUsageTotal == w.tokenUsageTotal + tokenUsage
      && w'.process == if w.process == BUSY then IDLE else w.process
  {
  }

  /**
    In every run that cancels idle workers only: when a call's execution ends, its worker's history
    starts with that call's task and the outcome COMPLETED or FAILED as the plugin reported, the
    worker is idle again, no other worker changes, and the caller is told the same.
  */
  lemma EndIsRecorded(workers: map<Id, WorkerState>, steps: seq<Step>, s: State, i: nat, success: bool, tokenUsage: nat)
    requires AllIdle(workers) && Reaches(workers, steps, s) && CancelsOnlyIdle(workers, steps)
    requires i < |s.calls| && s.calls[i].phase.Executing? && s.calls[i].request.workerId in s.workers
    ensures var r, s' := s.calls[i].request, Apply(s, Executed(i, success, tokenUsage));
      && s'.workers.Keys == s.workers.Keys
      && (forall w :: w in s.workers && w != r.workerId ==> s'.workers[w] == s.workers[w])
      && Unshifted(s'.workers[r.workerId].history,
                   HistoryEntry(r.taskId, if success then COMPLETED else FAILED, tokenUsage),
                   s.workers[r.workerId].history)
      && s'.workers[r.workerId].active.None? && s'.workers[r.workerId].process == IDLE
      && s'.workers[r.workerId].tokenUsageTotal == s.workers[r.workerId].tokenUsageTotal + tokenUsage
      && |s'.calls| == |s.calls| && s'.calls[i] == Call(r, Returned(success))
  {
    SingleFlight(workers, steps, s);
    var w := s.calls[i].request.workerId;
    assert OneFlight(s, w) && RunsFor(s, i, w) && Names(s, i, w);
    ExecutingIsBusy(workers, steps, s, w);
    hide Reaches, CancelsOnlyIdle, Flights, OneFlight, Apply, Completed, Unshifted;
    ExecutedApplies(s, i, success, tokenUsage);
    CompletedMeans(s.workers[w], if success then COMPLETED else FAILED, tokenUsage);
  }

  /** A call that ends after its worker's execution was taken away leaves every worker as it is. */
  lemma EndWithoutExecution(s: State, i: nat, success: bool, tokenUsage: nat)
    requires i < |s.calls| && s.calls[i].phase.Executing?
    requires s.calls[i].request.workerId in s.workers ==> s.workers[s.calls[i].request.workerId].active.None?
    ensures Apply(s, Executed(i, success, tokenUsage)).workers == s.workers
  {
    ExecutedApplies(s, i, success, tokenUsage);
  }

  /** A cancelled execution is recorded as INTERRUPTED and costs no tokens. */
  lemma CancelIsRecorded(s: State, k: nat)
    requires k < |s.cancels| && s.cancels[k].0 in s.workers && s.workers[s.cancels[k].0].active.Some?
    ensures var w, s' := s.cancels[k].0, Apply(s, PluginCancelled(k));
      && w in s'.workers && s'.workers[w].active.None?
      && Unshifted(s'.workers[w].history,
                   HistoryEntry(s.workers[w].active.value.taskId, INTERRUPTED, 0), s.workers[w].history)
      && s'.workers[w].tokenUsageTotal == s.workers[w].tokenUsageTotal
  {
    PluginCancelApplies(s, k);
    CompletedMeans(s.workers[s.cancels[k].0], INTERRUPTED, 0);
    hide Apply, Completed, Unshifted;
  }

  // ---------------------------------------------------------------- what the table holds

  ghost predicate NoCancel(steps: seq<Step>) {
    forall i :: 0 <= i < |steps| ==> !steps[i].CancelForWorker? && !steps[i].CancelReasoning?
  }

  ghost predicate DistinctIds(calls: seq<Call>) {
    forall i, j :: 0 <= i < j < |calls| ==> calls[i].request.requestId != calls[j].request.requestId
  }

  /** A call that has entered the table and that no return has taken out again. */
  ghost predicate Holds(s: State, i: nat, id: Id) {
    i < |s.calls| && s.calls[i].request.requestId == id && !s.calls[i].phase.Returned?
  }

  ghost predicate TableExact(s: State) {
    forall id :: id in s.activeRequests <==> exists i :: Holds(s, i, id)
  }

  /**
    Without cancellations and with distinct request ids, the table holds exactly the requests in
    flight and those whose beginExecution threw: a thrown request never leaves it.
  */
  lemma {:induction false} TableKeepsThrown(workers: map<Id, WorkerState>, steps: seq<Step>, s: State)
    requires Reaches(workers, steps, s) && NoCancel(steps) && DistinctIds(s.calls)
    ensures TableExact(s) && s.cancels == []
  {
    if steps != [] {
      hide Enabled, Apply, DistinctIds, TableExact;
      var last := |steps| - 1;
      var before :| Reaches(workers, steps[..last], before) && Enabled(before, steps[last]) &&
        s == Apply(before, steps[last]);
      assert NoCancel(steps[..last]) && !steps[last].CancelForWorker? && !steps[last].CancelReasoning?;
      IdsOnlyGrow(before, steps[last]);
      TableKeepsThrown(workers, steps[..last], before);
      StepKeepsTable(before, steps[last]);
    }
  }

  lemma IdsOnlyGrow(s: State, e: Step)
    requires Enabled(s, e) && DistinctIds(Apply(s, e).calls)
    ensures DistinctIds(s.calls)
  {
    hide Begun, Completed, Busy, Apply, DistinctIds;
    var s' := Apply(s, e);
    match e {
      case RequestReasoning(r) => RequestApplies(s, r);
      case Selected(i, found) => SelectedApplies(s, i, found);
      case SelectionThrew(i) => ThrewApplies(s, i);
      case Executed(i, success, tokenUsage) => ExecutedApplies(s, i, success, tokenUsage);
      case CancelReasoning(_) => CancelTouchesNobody(s, e);
      case CancelForWorker(_) => CancelTouchesNobody(s, e);
      case PluginCancelled(k) => PluginCancelApplies(s, k);
    }
    hide Enabled;
    IdsStayDistinct(s, s');
  }

  lemma IdsStayDistinct(s: State, s': State)
    requires |s.calls| <= |s'.calls| && DistinctIds(s'.calls)
    requires forall i :: 0 <= i < |s.calls| ==> s'.calls[i].request == s.calls[i].request
    ensures DistinctIds(s.calls)
  {
  }

  lemma StepKeepsTable(s: State, e: Step)
    requires TableExact(s) && s.cancels == [] && Enabled(s, e) && DistinctIds(Apply(s, e).calls)
    requires !e.CancelForWorker? && !e.CancelReasoning?
    ensures TableExact(Apply(s, e)) && Apply(s, e).cancels == []
  {
    hide TableExact, DistinctIds, Apply, Busy, WithPhase;
    match e {
      case RequestReasoning(r) =>
        RequestApplies(s, r);
        TableGrows(s, Apply(s, e), Apply(s, e).calls[|s.calls|]);
      case Selected(i, found) =>
        SelectedKeepsTable(s, i, found);
      case SelectionThrew(i) =>
        ThrewApplies(s, i);
        TableMoves(s, Apply(s, e), i, Thrown);
      case Executed(i, success, tokenUsage) =>
        ExecutedApplies(s, i, success, tokenUsage);
        TableMoves(s, Apply(s, e), i, Returned(success));
    }
  }

  lemma SelectedKeepsTable(s: State, i: nat, found: bool)
    requires TableExact(s) && Enabled(s, Selected(i, found)) && DistinctIds(Apply(s, Selected(i, found)).calls)
    ensures TableExact(Apply(s, Selected(i, found))) && Apply(s, Selected(i, found)).cancels == s.cancels
  {
    hide TableExact, DistinctIds, Apply, Begun;
    SelectedApplies(s, i, found);
    var s' := Apply(s, Selected(i, found));
    TableMoves(s, s', i, s'.calls[i].phase);
  }

  lemma TableGrows(s: State, s': State, c: Call)
    requires TableExact(s) && s'.calls == s.calls + [c]
    requires s'.activeRequests.Keys == s.activeRequests.Keys + if c.phase.Returned? then {} else {c.request.requestId}
    ensures TableExact(s')
  {
    var n := |s.calls|;
    forall id
      ensures id in s'.activeRequests <==> exists i :: Holds(s', i, id)
    {
      assert forall i :: i != n ==> (Holds(s', i, id) <==> Holds(s, i, id));
      assert Holds(s', n, id) <==> !c.phase.Returned? && id == c.request.requestId;
    }
  }

  lemma TableMoves(s: State, s': State, k: nat, p: Phase)
    requires TableExact(s) && k < |s.calls| && !s.calls[k].phase.Returned?
    requires s'.calls == WithPhase(s.calls, k, p) && DistinctIds(s'.calls)
    requires s'.activeRequests.Keys ==
      s.activeRequests.Keys - if p.Returned? then {s.calls[k].request.requestId} else {}
    ensures TableExact(s')
  {
    forall id
      ensures id in s'.activeRequests <==> exists i :: Holds(s', i, id)
    {
      assert forall i :: i != k ==> (Holds(s', i, id) <==> Holds(s, i, id));
      assert Holds(s, k, id) <==> id == s.calls[k].request.requestId;
      if id == s.calls[k].request.requestId {
        assert s'.calls[k].request.requestId == id;
        assert forall i :: 0 <= i < |s'.calls| && i != k ==> s'.calls[i].request.requestId != id;
        assert Holds(s', k, id) <==> !p.Returned?;
      } else {
        assert !Holds(s', k, id);
      }
    }
  }

  // ---------------------------------------------------------------- the coordinator object

  class ReasoningCoordinator {
    var workers: map<Id, Worker>
    var activeRequests: map<Id, Request>
    /** The suspended calls of requestReasoning and cancelForWorker. */
    var calls: seq<Call>
    var cancels: seq<(Id, Execution)>

    ghost predicate Valid()
      reads this, workers.Values
    {
      forall w :: w in workers ==> workers[w].id == w && workers[w].Valid()
    }

    ghost function View(): State
      reads this, workers.Values
    {
      State(map w | w in workers :: workers[w].View(), activeRequests, calls, cancels)
    }

    constructor (workers: map<Id, Worker>)
      requires forall w :: w in workers ==> workers[w].id == w && workers[w].Valid()
      ensures Valid() && View() == Start(map w | w in workers :: workers[w].View())
    {
      this.workers := workers;
      activeRequests, calls, cancels := map[], [], [];
    }

    /** requestReasoning up to its first await. */
    method BeginRequest(r: Request)
      requires Valid()
      modifies this
      ensures Valid() && View() == Apply(old(View()), RequestReasoning(r))
    {
      hide Records, Completed, Begun;
      if |activeRequests| >= MAX_CONCURRENT_REQUESTS {
        calls := calls + [Call(r, Returned(false))];
      } else if r.workerId in workers && workers[r.workerId].activeExecution.Some? {
        calls := calls + [Call(r, Returned(false))];
      } else {
        activeRequests := activeRequests[r.requestId := r];
        calls := calls + [Call(r, Selecting)];
      }
    }

    /** From the plugin selection to the plugin's execution. */
    method AfterSelection(i: nat, found: bool)
      requires Valid() && Enabled(View(), Selected(i, found))
      modifies this, workers.Values
      ensures Valid() && View() == Apply(old(View()), Selected(i, found))
    {
      hide Records, Completed, Begun, Apply;
      SelectedApplies(View(), i, found);
      var r := calls[i].request;
      if !found {
        activeRequests := activeRequests - {r.requestId};
        calls := WithPhase(calls, i, Returned(false));
      } else if r.workerId in workers {
        var thrown := workers[r.workerId].BeginExecution(Execution(r.requestId, r.taskId));
        calls := WithPhase(calls, i, if thrown then Thrown else Executing);
      } else {
        calls := WithPhase(calls, i, Executing);
      }
    }

    /** The plugin selection rejected: the call rejects with it and leaves its table entry. */
    method AfterSelectionThrew(i: nat)
      requires Valid() && Enabled(View(), SelectionThrew(i))
      modifies this
      ensures Valid() && View() == Apply(old(View()), SelectionThrew(i))
    {
      calls := WithPhase(calls, i, Thrown);
    }

    /** From the end of the plugin's execution to the return. */
    method AfterExecution(i: nat, success: bool, tokenUsage: nat)
      requires Valid() && Enabled(View(), Executed(i, success, tokenUsage))
      modifies this, workers.Values
      ensures Valid() && View() == Apply(old(View()), Executed(i, success, tokenUsage))
    {
      hide Records, Completed, Begun, Apply;
      ExecutedApplies(View(), i, success, tokenUsage);
      var r := calls[i].request;
      activeRequests := activeRequests - {r.requestId};
      if r.workerId in workers {
        workers[r.workerId].CompleteExecution(if success then COMPLETED else FAILED, tokenUsage);
      }
      calls := WithPhase(calls, i, Returned(success));
    }

    /** cancelForWorker up to its await: reads the worker's execution. */
    method BeginWorkerCancel(workerId: Id) returns (found: bool)
      requires Valid()
      modifies this
      ensures Valid() && View() == Apply(old(View()), CancelForWorker(workerId)) && found == Busy(old(View()), workerId)
    {
      found := workerId in workers && workers[workerId].activeExecution.Some?;
      if found {
        cancels := cancels + [(workerId, workers[workerId].activeExecution.value)];
      }
    }

    /** cancelForWorker after the plugin's cancel: completes whatever execution the worker has by then. */
    method AfterPluginCancel(k: nat)
      requires Valid() && Enabled(View(), PluginCancelled(k))
      modifies this, workers.Values
      ensures Valid() && View() == Apply(old(View()), PluginCancelled(k))
    {
      hide Records, Completed, Begun, Apply;
      PluginCancelApplies(View(), k);
      var (workerId, execution) := cancels[k];
      activeRequests := activeRequests - {execution.requestId};
      if workerId in workers {
        workers[workerId].CompleteExecution(INTERRUPTED, 0);
      }
      cancels := cancels[..k] + cancels[k + 1..];
    }

    method CancelRequest(requestId: Id) returns (cancelled: bool)
      requires Valid()
      modifies this
      ensures Valid() && View() == Apply(old(View()), CancelReasoning(requestId))
      ensures cancelled <==> requestId in old(activeRequests)
    {
      cancelled := requestId in activeRequests;
      activeRequests := activeRequests - {requestId};
    }
  }
}
