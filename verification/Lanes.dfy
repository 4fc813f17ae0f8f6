/**
  Worker lanes (worker_runtime.ts, worker_dispatcher.ts): each worker's requests are chained on one
  promise tail.  A lane refines a first-in first-out queue with a single server.
*/
module Lanes {
  import opened Common

  datatype Request = Request(workerId: Id, taskId: Id)

  datatype RunState = Chained | Executing | Settled(ok: bool)

  /** One promise of the chain; `after` is the index of the promise it waits for, -1 the resolved start. */
  datatype Promised = Promised(request: Request, after: int, state: RunState)

  datatype Lane = Lane(runs: seq<Promised>, tail: int, queued: int, active: bool)

  const EMPTY_LANE := Lane([], -1, 0, false)

  datatype Event = Enqueue(request: Request) | Begin(i: nat) | Settle(i: nat, ok: bool)

  /** A callback runs once the promise it is chained on has settled, by success or by rejection. */
  predicate Enabled(l: Lane, e: Event) {
    match e
    case Enqueue(_) => true
    case Begin(i) =>
      && i < |l.runs| && l.runs[i].state.Chained?
      && (l.runs[i].after == -1 || (0 <= l.runs[i].after < |l.runs| && l.runs[l.runs[i].after].state.Settled?))
    case Settle(i, _) => i < |l.runs| && l.runs[i].state.Executing?
  }

  function Apply(l: Lane, e: Event): Lane
    requires Enabled(l, e)
  {
    match e
    case Enqueue(r) => Lane(l.runs + [Promised(r, l.tail, Chained)], |l.runs|, l.queued + 1, l.active)
    case Begin(i) => l.(runs := l.runs[i := l.runs[i].(state := Executing)], queued := l.queued - 1, active := true)
    case Settle(i, ok) => l.(runs := l.runs[i := l.runs[i].(state := Settled(ok))], active := false)
  }

  // ---------------------------------------------------------------- the specification

  /** A single server: what it has served, what it serves now, and who waits, in order of arrival. */
  datatype Server = Server(served: seq<(Request, bool)>, current: Option<Request>, waiting: seq<Request>)

  datatype Service = Arrive(request: Request) | Serve | Depart(ok: bool)

  predicate Serves(s: Server, e: Service) {
    match e
    case Arrive(_) => true
    case Serve => s.current.None? && s.waiting != []
    case Depart(_) => s.current.Some?
  }

  function Serviced(s: Server, e: Service): Server
    requires Serves(s, e)
  {
    match e
    case Arrive(r) => s.(waiting := s.waiting + [r])
    case Serve => s.(current := Some(s.waiting[0]), waiting := s.waiting[1..])
    case Depart(ok) => s.(current := None, served := s.served + [(s.current.value, ok)])
  }

  // ---------------------------------------------------------------- the refinement

  /** The index of the first run that has not settled. */
  ghost function Front(runs: seq<Promised>): (f: nat)
    ensures f <= |runs| && (forall i :: 0 <= i < f ==> runs[i].state.Settled?)
    ensures f < |runs| ==> !runs[f].state.Settled?
  {
    if runs == [] || !runs[0].state.Settled? then 0 else 1 + Front(runs[1..])
  }

  /** The settled runs come first, then at most one run under way, then the chained ones. */
  ghost predicate Inv(l: Lane) {
    InvAt(l, Front(l.runs))
  }

  ghost predicate InvAt(l: Lane, f: nat) {
    && f <= |l.runs| && (forall i :: 0 <= i < f ==> l.runs[i].state.Settled?)
    && (f < |l.runs| ==> !l.runs[f].state.Settled?)
    && l.tail == |l.runs| - 1
    && (forall i :: 0 <= i < |l.runs| ==> l.runs[i].after == i - 1)
    && (forall i :: f < i < |l.runs| ==> l.runs[i].state.Chained?)
    && l.active == (f < |l.runs| && l.runs[f].state.Executing?)
    && l.queued == |l.runs| - f - (if l.active then 1 else 0)
  }

  ghost function Requests(runs: seq<Promised>): (r: seq<Request>)
    ensures |r| == |runs| && forall i :: 0 <= i < |r| ==> r[i] == runs[i].request
  {
    seq(|runs|, i requires 0 <= i < |runs| => runs[i].request)
  }

  ghost function Results(runs: seq<Promised>): (r: seq<(Request, bool)>)
    requires forall i :: 0 <= i < |runs| ==> runs[i].state.Settled?
    ensures |r| == |runs| && forall i :: 0 <= i < |r| ==> r[i] == (runs[i].request, runs[i].state.ok)
  {
    seq(|runs|, i requires 0 <= i < |runs| => (runs[i].request, runs[i].state.ok))
  }

  ghost function Abstract(l: Lane): Server
    requires Inv(l)
  {
    AbstractAt(l, Front(l.runs))
  }

  ghost function AbstractAt(l: Lane, f: nat): Server
    requires InvAt(l, f)
  {
    Server(Results(l.runs[..f]),
           if l.active then Some(l.runs[f].request) else None,
           Requests(if l.active then l.runs[f + 1..] else l.runs[f..]))
  }

  ghost function ServiceOf(e: Event): Service {
    match e
    case Enqueue(r) => Arrive(r)
    case Begin(_) => Serve
    case Settle(_, ok) => Depart(ok)
  }

  lemma FrontIs(l: Lane, f: nat)
    requires InvAt(l, f)
    ensures Front(l.runs) == f
  {
  }

  /** Only the run at the front can begin, and only when no run is under way; only it can settle. */
  lemma OnlyTheFrontMoves(l: Lane, e: Event)
    requires Inv(l) && Enabled(l, e) && !e.Enqueue?
    ensures e.i == Front(l.runs) && (e.Begin? ==> !l.active && l.queued > 0) && (e.Settle? ==> l.active)
    ensures forall j :: 0 <= j < e.i ==> l.runs[j].state.Settled?
  {
  }

  /** Every lane event is the corresponding event of the single server. */
  lemma Refines(l: Lane, e: Event)
    requires Inv(l) && Enabled(l, e)
    ensures Inv(Apply(l, e))
    ensures Serves(Abstract(l), ServiceOf(e)) && Abstract(Apply(l, e)) == Serviced(Abstract(l), ServiceOf(e))
  {
    var f, l' := Front(l.runs), Apply(l, e);
    hide Front, Requests, Results;
    match e {
      case Enqueue(r) => EnqueueRefines(l, f, r);
      case Begin(_) => BeginRefines(l, f, e);
      case Settle(_, ok) => SettleRefines(l, f, e);
    }
    hide InvAt, AbstractAt, Apply, Enabled;
    FrontIs(l', if e.Settle? then f + 1 else f);
  }

  lemma EnqueueRefines(l: Lane, f: nat, r: Request)
    requires InvAt(l, f)
    ensures InvAt(Apply(l, Enqueue(r)), f)
    ensures AbstractAt(Apply(l, Enqueue(r)), f) == Serviced(AbstractAt(l, f), Arrive(r))
  {
    var l' := Apply(l, Enqueue(r));
    EnqueueKeepsInv(l, f, r);
    var start := if l.active then f + 1 else f;
    assert l'.runs[..f] == l.runs[..f];
    assert l'.runs[start..] == l.runs[start..] + [l'.runs[|l.runs|]];
    RequestsPush(l.runs[start..], l'.runs[|l.runs|]);
    hide InvAt, Requests, Results;
  }

  lemma EnqueueKeepsInv(l: Lane, f: nat, r: Request)
    requires InvAt(l, f)
    ensures InvAt(Apply(l, Enqueue(r)), f)
  {
  }

  lemma RequestsPush(runs: seq<Promised>, p: Promised)
    ensures Requests(runs + [p]) == Requests(runs) + [p.request]
  {
  }

  lemma RequestsKeep(runs: seq<Promised>, i: nat, p: Promised)
    requires i < |runs| && p.request == runs[i].request
    ensures Requests(runs[i := p]) == Requests(runs)
  {
  }

  lemma BeginRefines(l: Lane, f: nat, e: Event)
    requires InvAt(l, f) && e.Begin? && Enabled(l, e)
    ensures e.i == f && !l.active && InvAt(Apply(l, e), f)
    ensures Serves(AbstractAt(l, f), Serve) && AbstractAt(Apply(l, e), f) == Serviced(AbstractAt(l, f), Serve)
  {
    var l' := Apply(l, e);
    hide Requests, Results;
    assert l'.runs[..f] == l.runs[..f];
    assert l'.runs[f + 1..] == l.runs[f..][1..];
    assert Requests(l'.runs[f + 1..]) == Requests(l.runs[f..])[1..];
  }

  lemma SettleRefines(l: Lane, f: nat, e: Event)
    requires InvAt(l, f) && e.Settle? && Enabled(l, e)
    ensures e.i == f && l.active && InvAt(Apply(l, e), f + 1)
    ensures Serves(AbstractAt(l, f), Depart(e.ok))
    ensures AbstractAt(Apply(l, e), f + 1) == Serviced(AbstractAt(l, f), Depart(e.ok))
  {
    var l' := Apply(l, e);
    hide Requests, Results;
    assert l'.runs[f + 1..] == l.runs[f + 1..];
    assert l'.runs[..f + 1] == l.runs[..f] + [l'.runs[f]];
    assert Results(l'.runs[..f + 1]) == Results(l.runs[..f]) + [(l.runs[f].request, e.ok)];
  }

  ghost predicate Reaches(events: seq<Event>, l: Lane) {
    if events == [] then l == EMPTY_LANE
    else
      var last := |events| - 1;
      exists before :: Reaches(events[..last], before) && Enabled(before, events[last]) &&
        l == Apply(before, events[last])
  }

  ghost function Arrived(events: seq<Event>): seq<Request> {
    if events == [] then []
    else
      var e := events[|events| - 1];
      Arrived(events[..|events| - 1]) + if e.Enqueue? then [e.request] else []
  }

  /** How many executor calls the events have started. */
  ghost function Begun(events: seq<Event>): nat {
    if events == [] then 0 else Begun(events[..|events| - 1]) + if events[|events| - 1].Begin? then 1 else 0
  }

  /**
    In every reachable lane: the server has started the first Begun requests in order of arrival, one
    at a time; queueDepth is the number enqueued minus the number started; and the lane is busy
    exactly when some enqueued run has not settled.
  */
  lemma {:induction false} LaneIsFifo(events: seq<Event>, l: Lane)
    requires Reaches(events, l)
    ensures Inv(l) && Requests(l.runs) == Arrived(events)
    ensures Begun(events) == |Arrived(events)| - l.queued == Front(l.runs) + (if l.active then 1 else 0)
    ensures (l.active || l.queued > 0) <==> exists i :: 0 <= i < |l.runs| && !l.runs[i].state.Settled?
  {
    if events != [] {
      hide Front, Inv, Enabled, Apply;
      var last := |events| - 1;
      var before :| Reaches(events[..last], before) && Enabled(before, events[last]) &&
        l == Apply(before, events[last]);
      LaneIsFifo(events[..last], before);
      LaneStep(before, events[last]);
      hide Reaches;
    }
    BusyMeansUnfinished(l);
  }

  lemma LaneStep(l: Lane, e: Event)
    requires Inv(l) && Enabled(l, e)
    ensures var l' := Apply(l, e);
      && Inv(l')
      && Requests(l'.runs) == Requests(l.runs) + (if e.Enqueue? then [e.request] else [])
      && Front(l'.runs) + (if l'.active then 1 else 0) ==
        Front(l.runs) + (if l.active then 1 else 0) + (if e.Begin? then 1 else 0)
      && |l'.runs| - l'.queued == Front(l'.runs) + (if l'.active then 1 else 0)
  {
    LaneStepRequests(l, e);
    var f, l' := Front(l.runs), Apply(l, e);
    hide Front, AbstractAt, Requests;
    match e {
      case Enqueue(r) => EnqueueKeepsInv(l, f, r);
      case Begin(i) => BeginRefines(l, f, e);
      case Settle(i, ok) => SettleRefines(l, f, e);
    }
    FrontIs(l', if e.Settle? then f + 1 else f);
  }

  lemma LaneStepRequests(l: Lane, e: Event)
    requires Enabled(l, e)
    ensures Requests(Apply(l, e).runs) == Requests(l.runs) + (if e.Enqueue? then [e.request] else [])
  {
    var l' := Apply(l, e);
    hide Requests;
    match e {
      case Enqueue(r) => RequestsPush(l.runs, l'.runs[|l.runs|]);
      case Begin(i) => RequestsKeep(l.runs, i, l'.runs[i]);
      case Settle(i, ok) => RequestsKeep(l.runs, i, l'.runs[i]);
    }
  }

  lemma BusyMeansUnfinished(l: Lane)
    requires Inv(l)
    ensures (l.active || l.queued > 0) <==> exists i :: 0 <= i < |l.runs| && !l.runs[i].state.Settled?
  {
    var f := Front(l.runs);
    assert f < |l.runs| ==> !l.runs[f].state.Settled?;
  }

  /** The k-th executor call a lane starts is for the k-th request that was enqueued. */
  lemma CallsStartInOrder(events: seq<Event>, l: Lane, i: nat)
    requires Reaches(events, l) && Enabled(l, Begin(i))
    ensures i == Begun(events) < |Arrived(events)| && l.runs[i].request == Arrived(events)[i]
    ensures !l.active && forall j :: 0 <= j < |l.runs| ==> !l.runs[j].state.Executing?
    ensures forall j :: 0 <= j < i ==> l.runs[j].state.Settled?
  {
    LaneIsFifo(events, l);
    OnlyTheFrontMoves(l, Begin(i));
  }

  /** An unfinished lane is never stuck: the front can begin, or the run under way can settle. */
  lemma LaneMovesOn(events: seq<Event>, l: Lane)
    requires Reaches(events, l) && (l.active || l.queued > 0)
    ensures Enabled(l, Begin(Front(l.runs))) || Enabled(l, Settle(Front(l.runs), true))
  {
    LaneIsFifo(events, l);
  }

  // ---------------------------------------------------------------- the dispatcher

  type Dispatcher = map<Id, Lane>

  datatype DispatcherEvent = Dispatch(request: Request) | InLane(worker: Id, event: Event)

  predicate DispatcherEnabled(d: Dispatcher, e: DispatcherEvent) {
    match e
    case Dispatch(_) => true
    case InLane(w, le) => w in d && !le.Enqueue? && Enabled(d[w], le)
  }

  /** getRuntime creates a lane on first use; a dispatched request joins its own worker's lane. */
  function DispatcherApply(d: Dispatcher, e: DispatcherEvent): Dispatcher
    requires DispatcherEnabled(d, e)
  {
    match e
    case Dispatch(r) => d[r.workerId := Apply(if r.workerId in d then d[r.workerId] else EMPTY_LANE, Enqueue(r))]
    case InLane(w, le) => d[w := Apply(d[w], le)]
  }

  ghost predicate DispatcherReaches(events: seq<DispatcherEvent>, d: Dispatcher) {
    if events == [] then d == map[]
    else
      var last := |events| - 1;
      exists before :: DispatcherReaches(events[..last], before) && DispatcherEnabled(before, events[last]) &&
                       d == DispatcherApply(before, events[last])
  }

  ghost predicate DispatcherInv(d: Dispatcher) {
    forall w :: w in d ==> OwnLane(d[w], w)
  }

  /** A lane in order that holds requests for one worker only. */
  ghost predicate OwnLane(l: Lane, w: Id) {
    Inv(l) && forall i :: 0 <= i < |l.runs| ==> l.runs[i].request.workerId == w
  }

  /** An executor call under way: the lane it runs in and its position there. */
  ghost predicate ActiveCall(d: Dispatcher, worker: Id, lane: Id, i: nat) {
    lane in d && i < |d[lane].runs| && d[lane].runs[i].state.Executing? && d[lane].runs[i].request.workerId == worker
  }

  lemma {:induction false} DispatcherKeepsInv(events: seq<DispatcherEvent>, d: Dispatcher)
    requires DispatcherReaches(events, d)
    ensures DispatcherInv(d)
  {
    if events != [] {
      hide DispatcherEnabled, DispatcherApply, DispatcherInv;
      var last := |events| - 1;
      var before :| DispatcherReaches(events[..last], before) && DispatcherEnabled(before, events[last]) &&
                    d == DispatcherApply(before, events[last]);
      DispatcherKeepsInv(events[..last], before);
      DispatcherStep(before, events[last]);
    }
  }

  lemma DispatcherStep(d: Dispatcher, e: DispatcherEvent)
    requires DispatcherInv(d) && DispatcherEnabled(d, e)
    ensures DispatcherInv(DispatcherApply(d, e))
  {
    var w := if e.Dispatch? then e.request.workerId else e.worker;
    var lane := if w in d then d[w] else EMPTY_LANE;
    assert OwnLane(lane, w);
    OwnLaneStep(lane, w, if e.Dispatch? then Enqueue(e.request) else e.event);
    hide OwnLane, Apply, Enabled;
  }

  lemma OwnLaneStep(l: Lane, w: Id, e: Event)
    requires OwnLane(l, w) && Enabled(l, e) && (e.Enqueue? ==> e.request.workerId == w)
    ensures OwnLane(Apply(l, e), w)
  {
    LaneStep(l, e);
    hide Inv, Front, Requests;
  }

  /** In every reachable dispatcher, two active executor calls for one worker are the same call. */
  lemma OneActiveCallPerWorker(events: seq<DispatcherEvent>, d: Dispatcher, w: Id, lane: Id, i: nat, lane': Id, j: nat)
    requires DispatcherReaches(events, d)
    requires ActiveCall(d, w, lane, i) && ActiveCall(d, w, lane', j)
    ensures lane == lane' == w && i == j
  {
    DispatcherKeepsInv(events, d);
    assert OwnLane(d[lane], lane) && OwnLane(d[lane'], lane');
  }

  /** What a dispatcher run does to one worker's lane. */
  ghost function LaneEvents(events: seq<DispatcherEvent>, w: Id): seq<Event> {
    if events == [] then []
    else
      var before, e := LaneEvents(events[..|events| - 1], w), events[|events| - 1];
      if e.Dispatch? && e.request.workerId == w then before + [Enqueue(e.request)]
      else if e.InLane? && e.worker == w then before + [e.event]
      else before
  }

  /** The requests dispatched to one worker, in order. */
  ghost function DispatchedTo(events: seq<DispatcherEvent>, w: Id): seq<Request> {
    if events == [] then []
    else
      var before, e := DispatchedTo(events[..|events| - 1], w), events[|events| - 1];
      if e.Dispatch? && e.request.workerId == w then before + [e.request] else before
  }

  ghost function LaneOf(d: Dispatcher, w: Id): Lane {
    if w in d then d[w] else EMPTY_LANE
  }

  /** Seen from one worker, every dispatcher run is a run of its lane, fed with what was dispatched to it. */
  lemma {:induction false} DispatcherRunsLanes(events: seq<DispatcherEvent>, d: Dispatcher, w: Id)
    requires DispatcherReaches(events, d)
    ensures Reaches(LaneEvents(events, w), LaneOf(d, w))
    ensures Arrived(LaneEvents(events, w)) == DispatchedTo(events, w)
  {
    if events != [] {
      var last := |events| - 1;
      var before :| DispatcherReaches(events[..last], before) && DispatcherEnabled(before, events[last]) &&
                    d == DispatcherApply(before, events[last]);
      hide DispatcherReaches, Apply, Enabled;
      DispatcherRunsLanes(events[..last], before, w);
      var e, prefix := events[last], LaneEvents(events[..last], w);
      if e.Dispatch? && e.request.workerId == w {
        EnqueueEnabled(LaneOf(before, w), e.request);
        ReachesOneMore(prefix, LaneOf(before, w), Enqueue(e.request));
      } else if e.InLane? && e.worker == w {
        ReachesOneMore(prefix, LaneOf(before, w), e.event);
      }
    }
  }

  lemma EnqueueEnabled(l: Lane, r: Request)
    ensures Enabled(l, Enqueue(r))
  {
  }

  lemma ReachesOneMore(events: seq<Event>, l: Lane, e: Event)
    requires Reaches(events, l) && Enabled(l, e)
    ensures Reaches(events + [e], Apply(l, e))
    ensures Arrived(events + [e]) == Arrived(events) + if e.Enqueue? then [e.request] else []
  {
    hide Apply, Enabled;
    assert (events + [e])[..|events|] == events;
  }

  /**
    Across the dispatcher: each worker's lane serves exactly the requests dispatched to that worker,
    in order of dispatch, one at a time, and is busy exactly while one of them has not settled.
  */
  lemma DispatcherIsFifo(events: seq<DispatcherEvent>, d: Dispatcher, w: Id)
    requires DispatcherReaches(events, d)
    ensures var l, sent := LaneOf(d, w), DispatchedTo(events, w);
      && Requests(l.runs) == sent
      && Begun(LaneEvents(events, w)) == |sent| - l.queued
      && ((l.active || l.queued > 0) <==> exists i :: 0 <= i < |l.runs| && !l.runs[i].state.Settled?)
    ensures forall i: nat :: DispatcherEnabled(d, InLane(w, Begin(i))) ==>
      && i == Begun(LaneEvents(events, w)) < |DispatchedTo(events, w)|
      && d[w].runs[i].request == DispatchedTo(events, w)[i]
      && (forall j :: 0 <= j < i ==> d[w].runs[j].state.Settled?)
      && (forall j :: 0 <= j < |d[w].runs| ==> !d[w].runs[j].state.Executing?)
  {
    DispatcherRunsLanes(events, d, w);
    LaneIsFifo(LaneEvents(events, w), LaneOf(d, w));
    hide DispatcherReaches, Reaches, LaneEvents, DispatchedTo, Arrived, Begun, Inv, Enabled;
    forall i: nat | DispatcherEnabled(d, InLane(w, Begin(i)))
      ensures i == Begun(LaneEvents(events, w)) < |DispatchedTo(events, w)|
      ensures d[w].runs[i].request == DispatchedTo(events, w)[i]
      ensures forall j :: 0 <= j < i ==> d[w].runs[j].state.Settled?
      ensures forall j :: 0 <= j < |d[w].runs| ==> !d[w].runs[j].state.Executing?
    {
      CallsStartInOrder(LaneEvents(events, w), d[w], i);
    }
  }

  // ---------------------------------------------------------------- the objects

  class WorkerRuntime {
    const workerId: Id
    var runs: seq<Promised>
    var tail: int
    var queued: int
    var active: bool

    ghost function View(): Lane
      reads this
    {
      Lane(runs, tail, queued, active)
    }

    constructor (workerId: Id)
      ensures this.workerId == workerId && View() == EMPTY_LANE
    {
      this.workerId := workerId;
      runs, tail, queued, active := [], -1, 0, false;
    }

    method Add(request: Request) returns (run: nat)
      modifies this
      ensures View() == Apply(old(View()), Enqueue(request)) && run == old(|runs|)
    {
      queued := queued + 1;
      run := |runs|;
      runs := runs + [Promised(request, tail, Chained)];
      tail := run;
    }

    /** The continuation enqueue attached to the previous tail. */
    method OnPreviousSettled(i: nat)
      requires Enabled(View(), Begin(i))
      modifies this
      ensures View() == Apply(old(View()), Begin(i))
    {
      queued := queued - 1;
      active := true;
      runs := runs[i := runs[i].(state := Executing)];
    }

    /** The executor's promise resolved or rejected; the finally block clears active either way. */
    method OnExecutorSettled(i: nat, ok: bool)
      requires Enabled(View(), Settle(i, ok))
      modifies this
      ensures View() == Apply(old(View()), Settle(i, ok))
    {
      active := false;
      runs := runs[i := runs[i].(state := Settled(ok))];
    }

    method IsBusy() returns (busy: bool)
      requires Inv(View())
      ensures busy <==> exists i :: 0 <= i < |runs| && !runs[i].state.Settled?
    {
      BusyMeansUnfinished(View());
      busy := active || queued > 0;
    }

    method QueueDepth() returns (depth: int)
      requires Inv(View())
      ensures depth == |Abstract(View()).waiting|
    {
      depth := queued;
    }
  }

  class DefaultWorkerDispatcher {
    var runtimes: map<Id, WorkerRuntime>

    /** No two workers share a runtime object. */
    ghost predicate Valid()
      reads this, runtimes.Values
    {
      forall w :: w in runtimes ==> runtimes[w].workerId == w
    }

    ghost function View(): Dispatcher
      reads this, runtimes.Values
    {
      map w | w in runtimes :: runtimes[w].View()
    }

    constructor ()
      ensures Valid() && View() == map[]
    {
      runtimes := map[];
    }

    method GetRuntime(workerId: Id) returns (runtime: WorkerRuntime)
      requires Valid()
      modifies this
      ensures Valid() && workerId in runtimes && runtimes[workerId] == runtime
      ensures if workerId in old(runtimes) then runtimes == old(runtimes)
              else fresh(runtime) && runtimes == old(runtimes)[workerId := runtime]
      ensures View() == if workerId in old(runtimes) then old(View()) else old(View())[workerId := EMPTY_LANE]
    {
      if workerId in runtimes {
        runtime := runtimes[workerId];
      } else {
        runtime := new WorkerRuntime(workerId);
        runtimes := runtimes[workerId := runtime];
      }
    }

    method DispatchWorkerTask(request: Request)
      requires Valid()
      modifies this, runtimes.Values
      ensures Valid()
      ensures View() == DispatcherApply(old(View()), Dispatch(request))
    {
      var runtime := GetRuntime(request.workerId);
      var run := runtime.Add(request);
      assert forall w :: w in runtimes && w != request.workerId ==> runtimes[w] != runtime;
    }
  }
}
