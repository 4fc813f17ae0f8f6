/** Restart, back-off and quarantine of crashed workers (worker_lifecycle_policy.ts). */
module Lifecycle {
  import opened Common

  datatype Options = Options(maxCrashesInWindow: int, windowMs: int, backoffBaseMs: int, backoffMaxMs: int)

  datatype Decision = Ignore | Quarantine | Restart(backoffMs: int)

  /** What the policy remembers of one worker. */
  datatype Record = Record(crashTimestamps: seq<int>, quarantined: bool)

  const CLEAN := Record([], false)

  /** `stamps.filter((t) => now - t < windowMs)`. */
  function InWindow(stamps: seq<int>, now: int, windowMs: int): seq<int> {
    if stamps == [] then []
    else
      var last := |stamps| - 1;
      InWindow(stamps[..last], now, windowMs) + if now - stamps[last] < windowMs then [stamps[last]] else []
  }

  function Pow2(n: nat): nat {
    if n == 0 then 1 else 2 * Pow2(n - 1)
  }

  function Min(a: int, b: int): int {
    if a < b then a else b
  }

  function Backoff(o: Options, attempt: nat): int
    requires attempt > 0
  {
    Min(o.backoffBaseMs * Pow2(attempt - 1), o.backoffMaxMs)
  }

  /** One crash at time now: prune, record, then quarantine or schedule a restart. */
  function OnCrash(o: Options, r: Record, now: int): (Record, Decision) {
    if r.quarantined then (r, Ignore)
    else
      var recent := InWindow(r.crashTimestamps, now, o.windowMs) + [now];
      if |recent| > o.maxCrashesInWindow then (Record(recent, true), Quarantine)
      else (Record(recent, false), Restart(Backoff(o, |recent|)))
  }

  /** Pruning keeps each time stamp as often as it occurs if it is young enough, and drops it otherwise. */
  lemma {:induction false} InWindowKeeps(stamps: seq<int>, now: int, windowMs: int, t: int)
    ensures multiset(InWindow(stamps, now, windowMs))[t] == if now - t < windowMs then multiset(stamps)[t] else 0
  {
    if stamps != [] {
      var start, last := stamps[..|stamps| - 1], stamps[|stamps| - 1];
      InWindowKeeps(start, now, windowMs, t);
      assert stamps == start + [last];
    }
  }

  /** And it keeps their order. */
  lemma {:induction false} InWindowInOrder(stamps: seq<int>, now: int, windowMs: int)
    ensures Subsequence(InWindow(stamps, now, windowMs), stamps)
  {
    if stamps != [] {
      var start, last := stamps[..|stamps| - 1], stamps[|stamps| - 1];
      var kept := InWindow(start, now, windowMs);
      InWindowInOrder(start, now, windowMs);
      hide Subsequence;
      SubsequencePush(kept, start, last);
      assert stamps == start + [last] && kept + [] == kept;
    }
  }

  /** The first crash waits for the base delay; each further one doubles it until the ceiling, where it stays. */
  lemma BackoffDoubles(o: Options, attempt: nat)
    requires attempt > 0
    ensures Backoff(o, 1) == if o.backoffBaseMs <= o.backoffMaxMs then o.backoffBaseMs else o.backoffMaxMs
    ensures var delay := Backoff(o, attempt);
      && (delay < o.backoffMaxMs ==>
            Backoff(o, attempt + 1) == if 2 * delay <= o.backoffMaxMs then 2 * delay else o.backoffMaxMs)
      && (delay >= o.backoffMaxMs && o.backoffBaseMs >= 0 ==> Backoff(o, attempt + 1) == o.backoffMaxMs)
  {
    var p := Pow2(attempt - 1);
    assert Pow2(attempt) == 2 * p;
    assert o.backoffBaseMs * (2 * p) == 2 * (o.backoffBaseMs * p);
    if o.backoffBaseMs >= 0 {
      assert o.backoffBaseMs * p >= 0;
    }
    assert Pow2(0) == 1;
    hide Pow2;
  }

  // ---------------------------------------------------------------- pruning against the full history

  lemma {:induction false} InWindowConcat(a: seq<int>, b: seq<int>, now: int, windowMs: int)
    ensures InWindow(a + b, now, windowMs) == InWindow(a, now, windowMs) + InWindow(b, now, windowMs)
  {
    if b == [] {
      assert a + b == a;
    } else {
      var last := |b| - 1;
      assert (a + b)[..|a + b| - 1] == a + b[..last];
      InWindowConcat(a, b[..last], now, windowMs);
    }
  }

  /** Pruning at one time does not change what a later pruning keeps. */
  lemma {:induction false} PruneTwice(stamps: seq<int>, earlier: int, now: int, windowMs: int)
    requires earlier <= now
    ensures InWindow(InWindow(stamps, earlier, windowMs), now, windowMs) == InWindow(stamps, now, windowMs)
  {
    if stamps != [] {
      var start, last := stamps[..|stamps| - 1], stamps[|stamps| - 1];
      var kept := if earlier - last < windowMs then [last] else [];
      PruneTwice(start, earlier, now, windowMs);
      assert InWindow(stamps, earlier, windowMs) == InWindow(start, earlier, windowMs) + kept;
      assert InWindow(stamps, now, windowMs) ==
             InWindow(start, now, windowMs) + if now - last < windowMs then [last] else [];
      InWindowOfOne(last, now, windowMs);
      hide InWindow;
      InWindowConcat(InWindow(start, earlier, windowMs), kept, now, windowMs);
    }
  }

  lemma InWindowOfOne(t: int, now: int, windowMs: int)
    ensures InWindow([], now, windowMs) == [] && InWindow([t], now, windowMs) == if now - t < windowMs then [t] else []
  {
    assert [t][..0] == [];
  }

  datatype Event = Crash(now: int) | Clear

  /** Crash times never go back. */
  ghost predicate Chronological(events: seq<Event>) {
    forall i, j :: 0 <= i < j < |events| && events[i].Crash? && events[j].Crash? ==> events[i].now <= events[j].now
  }

  function Remember(o: Options, events: seq<Event>): Record {
    if events == [] then CLEAN
    else
      var before := Remember(o, events[..|events| - 1]);
      match events[|events| - 1]
      case Crash(now) => OnCrash(o, before, now).0
      case Clear => CLEAN
  }

  /** Every crash since the last clear that was not ignored, without any pruning. */
  function History(o: Options, events: seq<Event>): seq<int> {
    if events == [] then []
    else
      var before := events[..|events| - 1];
      match events[|events| - 1]
      case Crash(now) => if Remember(o, before).quarantined then History(o, before) else History(o, before) + [now]
      case Clear => []
  }

  ghost predicate NotAfter(events: seq<Event>, now: int) {
    forall i :: 0 <= i < |events| && events[i].Crash? ==> events[i].now <= now
  }

  /**
    The pruned list always answers like the full history: filtered to the window at any later time
    the two are the same list, so getCrashCount counts every recorded crash in the window.
  */
  lemma {:induction false} PrunedIsHistory(o: Options, events: seq<Event>, now: int)
    requires Chronological(events) && NotAfter(events, now)
    ensures InWindow(Remember(o, events).crashTimestamps, now, o.windowMs) ==
      InWindow(History(o, events), now, o.windowMs)
  {
    if events != [] {
      var before, last := events[..|events| - 1], events[|events| - 1];
      PrunedIsHistory(o, before, now);
      if last.Crash? && !Remember(o, before).quarantined {
        var r := Remember(o, before);
        PrunedIsHistory(o, before, last.now);
        PruneTwice(r.crashTimestamps, last.now, now, o.windowMs);
        InWindowConcat(InWindow(r.crashTimestamps, last.now, o.windowMs), [last.now], now, o.windowMs);
        InWindowConcat(History(o, before), [last.now], now, o.windowMs);
      }
    }
  }

  /** The crashes in the window that ends with the i-th recorded crash, that one included. */
  ghost function CountAt(o: Options, history: seq<int>, i: nat): nat
    requires i < |history|
  {
    |InWindow(history[..i], history[i], o.windowMs)| + 1
  }

  /**
    The decisions are those of the full history: every recorded crash but the last stayed within
    maxCrashesInWindow, and the worker is quarantined exactly when the last one exceeded it.
  */
  lemma {:induction false} QuarantineIsExact(o: Options, events: seq<Event>)
    requires Chronological(events)
    ensures var h := History(o, events);
      && (forall i :: 0 <= i < |h| - 1 ==> CountAt(o, h, i) <= o.maxCrashesInWindow)
      && (Remember(o, events).quarantined <==> h != [] && CountAt(o, h, |h| - 1) > o.maxCrashesInWindow)
  {
    if events != [] {
      var before, last := events[..|events| - 1], events[|events| - 1];
      QuarantineIsExact(o, before);
      if last.Crash? && !Remember(o, before).quarantined {
        PrunedIsHistory(o, before, last.now);
        var h0, h := History(o, before), History(o, events);
        assert h[..|h0|] == h0;
        forall i | 0 <= i < |h| - 1
          ensures CountAt(o, h, i) <= o.maxCrashesInWindow
        {
          assert h[..i] == h0[..i] && h[i] == h0[i];
          assert CountAt(o, h, i) == CountAt(o, h0, i);
        }
      }
    }
  }

  /** What the next crash decides, read off the full history. */
  lemma NextDecision(o: Options, events: seq<Event>, now: int)
    requires Chronological(events) && NotAfter(events, now)
    ensures var count := |InWindow(History(o, events), now, o.windowMs)| + 1;
      OnCrash(o, Remember(o, events), now).1 ==
      if Remember(o, events).quarantined then Ignore
      else if count > o.maxCrashesInWindow then Quarantine
      else Restart(Backoff(o, count))
  {
    PrunedIsHistory(o, events, now);
  }

  ghost predicate Ascending(h: seq<int>) {
    forall i, j :: 0 <= i < j < |h| ==> h[i] <= h[j]
  }

  lemma AscendsPush(h: seq<int>, now: int)
    requires Ascending(h) && forall t :: t in h ==> t <= now
    ensures Ascending(h + [now])
  {
    assert forall i :: 0 <= i < |h| ==> h[i] in h;
  }

  lemma {:induction false} HistoryAscends(o: Options, events: seq<Event>)
    requires Chronological(events)
    ensures Ascending(History(o, events)) && forall t :: t in History(o, events) ==> Crash(t) in events
  {
    if events != [] {
      var before, last := events[..|events| - 1], events[|events| - 1];
      HistoryAscends(o, before);
      assert events == before + [last] && last in events;
      assert forall e :: e in before ==> e in events;
      if last.Crash? && !Remember(o, before).quarantined {
        var h := History(o, before);
        forall t | t in h
          ensures t <= last.now
        {
          var k :| 0 <= k < |before| && before[k] == Crash(t);
          assert events[k] == Crash(t) && events[|events| - 1] == last;
        }
        AscendsPush(h, last.now);
        assert forall t :: t in h + [last.now] <==> t in h || t == last.now;
      }
    }
  }

  lemma {:induction false} WindowHoldsRun(h: seq<int>, i: nat, now: int, windowMs: int)
    requires i <= |h| && forall k :: i <= k < |h| ==> now - h[k] < windowMs
    ensures |InWindow(h, now, windowMs)| >= |h| - i
  {
    if i < |h| {
      WindowHoldsRun(h[..|h| - 1], i, now, windowMs);
    }
  }

  /**
    Between clears, any span shorter than windowMs holds at most maxCrashesInWindow restart
    decisions: crashes i to j of the history, all answered by a restart, number at most that many.
  */
  lemma RestartsAreBounded(o: Options, events: seq<Event>, i: nat, j: nat)
    requires Chronological(events) && i <= j < |History(o, events)|
    requires History(o, events)[j] - History(o, events)[i] < o.windowMs
    requires Remember(o, events).quarantined ==> j < |History(o, events)| - 1
    ensures j - i + 1 <= o.maxCrashesInWindow
  {
    var h := History(o, events);
    QuarantineIsExact(o, events);
    HistoryAscends(o, events);
    forall k | i <= k < j
      ensures h[j] - h[..j][k] < o.windowMs
    {
      assert k == i || h[i] <= h[k];
    }
    WindowHoldsRun(h[..j], i, h[j], o.windowMs);
    assert CountAt(o, h, j) <= o.maxCrashesInWindow;
  }

  /** The scheduled back-off grows with the count in the window and stays below its ceiling. */
  lemma {:induction false} BackoffGrows(o: Options, a: nat, b: nat)
    requires 0 < a <= b && o.backoffBaseMs >= 0
    ensures Backoff(o, a) <= Backoff(o, b) <= o.backoffMaxMs
    decreases b
  {
    if a < b {
      BackoffGrows(o, a, b - 1);
      assert o.backoffBaseMs * Pow2(b - 1) == o.backoffBaseMs * Pow2(b - 2) + o.backoffBaseMs * Pow2(b - 2);
    }
  }

  // ---------------------------------------------------------------- the policy object

  class WorkerLifecyclePolicy {
    const options: Options
    var crashTimestamps: map<Id, seq<int>>
    var quarantined: set<Id>

    function RecordOf(workerId: Id): Record
      reads this
    {
      Record(if workerId in crashTimestamps then crashTimestamps[workerId] else [], workerId in quarantined)
    }

    constructor (options: Options)
      ensures this.options == options && forall w :: RecordOf(w) == CLEAN
    {
      this.options := options;
      crashTimestamps, quarantined := map[], {};
    }

    /** Handles one WorkerFailed event, up to the back-off sleep. */
    method OnWorkerFailed(workerId: Id, now: int) returns (decision: Decision)
      modifies this
      ensures (RecordOf(workerId), decision) == OnCrash(options, old(RecordOf(workerId)), now)
      ensures forall w :: w != workerId ==> RecordOf(w) == old(RecordOf(w))
    {
      if workerId in quarantined {
        return Ignore;
      }
      var recent := RecentCrashes(workerId, now);
      recent := recent + [now];
      crashTimestamps := crashTimestamps[workerId := recent];
      if |recent| > options.maxCrashesInWindow {
        quarantined := quarantined + {workerId};
        return Quarantine;
      }
      decision := Restart(Backoff(options, |recent|));
    }

    method RecentCrashes(workerId: Id, now: int) returns (recent: seq<int>)
      ensures recent == InWindow(RecordOf(workerId).crashTimestamps, now, options.windowMs)
    {
      var stamps := if workerId in crashTimestamps then crashTimestamps[workerId] else [];
      recent := [];
      for i := 0 to |stamps|
        invariant recent == InWindow(stamps[..i], now, options.windowMs)
      {
        assert stamps[..i + 1][..i] == stamps[..i];
        if now - stamps[i] < options.windowMs {
          recent := recent + [stamps[i]];
        }
      }
      assert stamps[..|stamps|] == stamps;
    }

    method GetCrashCount(workerId: Id, now: int, ghost events: seq<Event>) returns (count: nat)
      requires RecordOf(workerId) == Remember(options, events) && Chronological(events) && NotAfter(events, now)
      ensures count == |InWindow(History(options, events), now, options.windowMs)|
    {
      PrunedIsHistory(options, events, now);
      var recent := RecentCrashes(workerId, now);
      count := |recent|;
    }

    method ClearQuarantine(workerId: Id)
      modifies this
      ensures RecordOf(workerId) == CLEAN
      ensures forall w :: w != workerId ==> RecordOf(w) == old(RecordOf(w))
    {
      quarantined := quarantined - {workerId};
      crashTimestamps := crashTimestamps - {workerId};
    }
  }
}
