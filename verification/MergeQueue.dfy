/** The queue of merge candidates (merge_queue.ts): highest priority first, ties in order of arrival. */
module MergeQueues {
  import opened Common

  datatype Candidate = Candidate(taskId: Id, worktreeId: Id, priority: int)

  // ---------------------------------------------------------------- what a stable sort is

  ghost predicate Descending(s: seq<Candidate>) {
    forall i, j :: 0 <= i < j < |s| ==> s[i].priority >= s[j].priority
  }

  /** The candidates of one priority, in order. */
  function Class(s: seq<Candidate>, p: int): seq<Candidate> {
    if s == [] then [] else (if s[0].priority == p then [s[0]] else []) + Class(s[1..], p)
  }

  /** r holds the candidates of s, highest priority first, each priority in the order s has them. */
  ghost predicate StablySorted(s: seq<Candidate>, r: seq<Candidate>) {
    Descending(r) && forall p :: Class(r, p) == Class(s, p)
  }

  lemma {:induction false} ClassConcat(a: seq<Candidate>, b: seq<Candidate>, p: int)
    ensures Class(a + b, p) == Class(a, p) + Class(b, p)
  {
    if a == [] {
      assert a + b == b;
    } else {
      ClassConcat(a[1..], b, p);
      assert (a + b)[0] == a[0] && (a + b)[1..] == a[1..] + b;
      var head := if a[0].priority == p then [a[0]] else [];
      assert head + (Class(a[1..], p) + Class(b, p)) == (head + Class(a[1..], p)) + Class(b, p);
    }
  }

  lemma {:induction false} ClassMembers(s: seq<Candidate>, p: int)
    ensures forall c :: c in Class(s, p) <==> c in s && c.priority == p
  {
    if s != [] {
      ClassMembers(s[1..], p);
    }
  }

  /** There is only one stable sort: order and the classes determine the sequence. */
  lemma {:induction false} StableSortIsUnique(r: seq<Candidate>, t: seq<Candidate>)
    requires Descending(r) && Descending(t) && forall p :: Class(r, p) == Class(t, p)
    ensures r == t
  {
    if r == [] || t == [] {
      SameWhenOneIsEmpty(r, t);
    } else {
      var p := r[0].priority;
      ClassMembers(r, p);
      ClassMembers(t, p);
      ClassMembers(r, t[0].priority);
      ClassMembers(t, t[0].priority);
      assert r[0] in t && t[0] in r;
      assert r[0].priority == t[0].priority;
      assert Class(r, p)[0] == r[0] && Class(t, p)[0] == t[0];
      forall q
        ensures Class(r[1..], q) == Class(t[1..], q)
      {
        assert Class(r, q) == (if q == p then [r[0]] else []) + Class(r[1..], q);
        assert Class(t, q) == (if q == p then [t[0]] else []) + Class(t[1..], q);
        assert Class(r[1..], q) == if q == p then Class(r, q)[1..] else Class(r, q);
        assert Class(t[1..], q) == if q == p then Class(t, q)[1..] else Class(t, q);
      }
      StableSortIsUnique(r[1..], t[1..]);
    }
  }

  lemma HeadHasClass(s: seq<Candidate>)
    ensures s != [] ==> Class(s, s[0].priority) != []
  {
  }

  lemma SameWhenOneIsEmpty(r: seq<Candidate>, t: seq<Candidate>)
    requires (r == [] || t == []) && forall p :: Class(r, p) == Class(t, p)
    ensures r == t
  {
    HeadHasClass(r);
    HeadHasClass(t);
  }

  // ---------------------------------------------------------------- the sort the queue relies on

  /** Where a new candidate lands in a sorted queue: behind everything of its own priority or higher. */
  function Insert(c: Candidate, sorted: seq<Candidate>): seq<Candidate> {
    if sorted == [] || sorted[0].priority < c.priority then [c] + sorted
    else [sorted[0]] + Insert(c, sorted[1..])
  }

  /** `Array.sort` by descending priority, which the language requires to be stable. */
  function Sort(s: seq<Candidate>): seq<Candidate> {
    if s == [] then [] else Insert(s[|s| - 1], Sort(s[..|s| - 1]))
  }

  lemma DescendingCons(c: Candidate, s: seq<Candidate>)
    requires Descending(s) && forall d :: d in s ==> d.priority <= c.priority
    ensures Descending([c] + s)
  {
    assert forall i :: 0 <= i < |s| ==> s[i] in s;
  }

  lemma {:induction false} InsertSorts(c: Candidate, sorted: seq<Candidate>)
    requires Descending(sorted)
    ensures Descending(Insert(c, sorted))
    ensures forall p :: Class(Insert(c, sorted), p) == Class(sorted + [c], p)
    ensures forall d :: d in Insert(c, sorted) <==> d in sorted || d == c
  {
    if sorted == [] || sorted[0].priority < c.priority {
      forall p
        ensures Class([c] + sorted, p) == Class(sorted + [c], p)
      {
        ClassConcat([c], sorted, p);
        ClassConcat(sorted, [c], p);
        ClassMembers(sorted, p);
        if p == c.priority {
          EmptyIfBelow(sorted, p);
        }
      }
    } else {
      InsertSorts(c, sorted[1..]);
      DescendingCons(sorted[0], Insert(c, sorted[1..]));
      forall p
        ensures Class(Insert(c, sorted), p) == Class(sorted + [c], p)
      {
        assert (sorted + [c])[1..] == sorted[1..] + [c];
        assert Insert(c, sorted)[1..] == Insert(c, sorted[1..]);
      }
    }
  }

  lemma {:induction false} EmptyIfBelow(s: seq<Candidate>, p: int)
    requires forall c :: c in s ==> c.priority < p
    ensures Class(s, p) == []
  {
    if s != [] {
      EmptyIfBelow(s[1..], p);
    }
  }

  lemma {:induction false} SortIsStable(s: seq<Candidate>)
    ensures StablySorted(s, Sort(s))
  {
    if s != [] {
      var before, c := s[..|s| - 1], s[|s| - 1];
      SortIsStable(before);
      InsertSorts(c, Sort(before));
      forall p
        ensures Class(Sort(s), p) == Class(s, p)
      {
        ClassConcat(Sort(before), [c], p);
        ClassConcat(before, [c], p);
        assert before + [c] == s;
      }
    }
  }

  /** Sorting changes nothing in a sequence that is already in order. */
  lemma SortedStays(s: seq<Candidate>)
    requires Descending(s)
    ensures Sort(s) == s
  {
    SortIsStable(s);
    StableSortIsUnique(Sort(s), s);
  }

  // ---------------------------------------------------------------- the queue against the arrivals

  /** The queue holds exactly the live candidates, highest priority first, ties in order of arrival. */
  ghost predicate Serves(queue: seq<Candidate>, live: seq<Candidate>) {
    StablySorted(live, queue)
  }

  /** The first occurrence of a candidate taken out. */
  function RemoveFirst(s: seq<Candidate>, c: Candidate): seq<Candidate> {
    if s == [] then [] else if s[0] == c then s[1..] else [s[0]] + RemoveFirst(s[1..], c)
  }

  lemma EnqueueServes(queue: seq<Candidate>, live: seq<Candidate>, c: Candidate)
    requires Serves(queue, live)
    ensures Serves(Sort(queue + [c]), live + [c])
  {
    SortIsStable(queue + [c]);
    forall p
      ensures Class(Sort(queue + [c]), p) == Class(live + [c], p)
    {
      ClassConcat(queue, [c], p);
      ClassConcat(live, [c], p);
    }
  }

  /** after is before with c put behind everything of its own priority or higher. */
  ghost predicate Lands(before: seq<Candidate>, c: Candidate, after: seq<Candidate>) {
    exists k :: 0 <= k <= |before| && LandsAt(before, c, after, k)
  }

  ghost predicate LandsAt(before: seq<Candidate>, c: Candidate, after: seq<Candidate>, k: nat)
    requires k <= |before|
  {
    && after == before[..k] + [c] + before[k..]
    && (forall i :: 0 <= i < k ==> before[i].priority >= c.priority)
    && (forall i :: k <= i < |before| ==> before[i].priority < c.priority)
  }

  lemma {:induction false} InsertLands(c: Candidate, sorted: seq<Candidate>)
    requires Descending(sorted)
    ensures Lands(sorted, c, Insert(c, sorted))
  {
    if sorted == [] || sorted[0].priority < c.priority {
      assert LandsAt(sorted, c, Insert(c, sorted), 0);
    } else {
      InsertLands(c, sorted[1..]);
      var k :| 0 <= k <= |sorted[1..]| && LandsAt(sorted[1..], c, Insert(c, sorted[1..]), k);
      LandsLater(sorted[1..], c, Insert(c, sorted[1..]), k, sorted[0]);
      assert [sorted[0]] + sorted[1..] == sorted;
    }
  }

  lemma LandsLater(before: seq<Candidate>, c: Candidate, after: seq<Candidate>, k: nat, head: Candidate)
    requires k <= |before| && LandsAt(before, c, after, k) && head.priority >= c.priority
    ensures Lands([head] + before, c, [head] + after)
  {
    var longer := [head] + before;
    assert longer[..k + 1] == [head] + before[..k] && longer[k + 1..] == before[k..];
    assert LandsAt(longer, c, [head] + after, k + 1);
  }

  /** Enqueueing sorts the whole queue again, yet no waiting candidate changes place with another. */
  lemma EnqueueLands(queue: seq<Candidate>, live: seq<Candidate>, c: Candidate)
    requires Serves(queue, live)
    ensures Lands(queue, c, Sort(queue + [c]))
  {
    SortedStays(queue);
    assert (queue + [c])[..|queue|] == queue;
    InsertLands(c, queue);
  }

  lemma {:induction false} ClassRemoveFirst(s: seq<Candidate>, c: Candidate, p: int)
    requires c in s
    ensures Class(RemoveFirst(s, c), p) == if p == c.priority then RemoveFirst(Class(s, p), c) else Class(s, p)
  {
    var head := if s[0].priority == p then [s[0]] else [];
    assert Class(s, p) == head + Class(s[1..], p);
    if s[0] != c {
      ClassRemoveFirst(s[1..], c, p);
      assert RemoveFirst(s, c)[1..] == RemoveFirst(s[1..], c);
      assert Class(RemoveFirst(s, c), p) == head + Class(RemoveFirst(s[1..], c), p);
      assert head != [] ==> RemoveFirst(Class(s, p), c) == head + RemoveFirst(Class(s, p)[1..], c);
      assert Class(s, p)[|head|..] == Class(s[1..], p);
    } else {
      assert Class(s, p)[|head|..] == Class(s[1..], p);
    }
  }

  lemma {:induction false} RemoveAt(s: seq<Candidate>, k: nat)
    requires k < |s| && forall i :: 0 <= i < k ==> s[i] != s[k]
    ensures RemoveFirst(s, s[k]) == s[..k] + s[k + 1..]
  {
    if k > 0 {
      RemoveAt(s[1..], k - 1);
    }
  }

  lemma SameCandidates(queue: seq<Candidate>, live: seq<Candidate>)
    requires Serves(queue, live)
    ensures forall c :: c in queue <==> c in live
  {
    forall c
      ensures c in queue <==> c in live
    {
      ClassMembers(queue, c.priority);
      ClassMembers(live, c.priority);
      assert c in Class(queue, c.priority) <==> c in Class(live, c.priority);
    }
  }

  /** The first candidate of a task. */
  function FirstOf(s: seq<Candidate>, taskId: Id): Option<Candidate> {
    if s == [] then None else if s[0].taskId == taskId then Some(s[0]) else FirstOf(s[1..], taskId)
  }

  /** The first of a task's candidates in a sequence is also the first within its own priority. */
  lemma {:induction false} FirstInClass(s: seq<Candidate>, k: nat)
    requires k < |s| && forall i :: 0 <= i < k ==> s[i].taskId != s[k].taskId
    ensures FirstOf(Class(s, s[k].priority), s[k].taskId) == Some(s[k])
  {
    if k > 0 {
      FirstInClass(s[1..], k - 1);
      var p := s[k].priority;
      var head := if s[0].priority == p then [s[0]] else [];
      assert Class(s, p) == head + Class(s[1..], p) && Class(s, p)[|head|..] == Class(s[1..], p);
    }
  }

  /** Taking one candidate out of the queue is taking it out of the live ones. */
  lemma RemoveServes(queue: seq<Candidate>, live: seq<Candidate>, k: nat)
    requires Serves(queue, live) && k < |queue| && forall i :: 0 <= i < k ==> queue[i] != queue[k]
    ensures Serves(queue[..k] + queue[k + 1..], RemoveFirst(live, queue[k]))
  {
    var c := queue[k];
    SameCandidates(queue, live);
    RemoveAt(queue, k);
    forall p
      ensures Class(RemoveFirst(queue, c), p) == Class(RemoveFirst(live, c), p)
    {
      ClassRemoveFirst(queue, c, p);
      ClassRemoveFirst(live, c, p);
    }
  }

  /** The head of the queue is the oldest live candidate of maximal priority. */
  lemma HeadIsOldestOfHighest(queue: seq<Candidate>, live: seq<Candidate>)
    requires Serves(queue, live) && queue != []
    ensures queue[0] in live && forall c :: c in live ==> c.priority <= queue[0].priority
    ensures Class(live, queue[0].priority) != [] && Class(live, queue[0].priority)[0] == queue[0]
  {
    SameCandidates(queue, live);
    assert queue[0] in queue;
    forall c | c in live
      ensures c.priority <= queue[0].priority
    {
      var i :| 0 <= i < |queue| && queue[i] == c;
    }
  }

  class MergeQueue {
    var queue: seq<Candidate>
    /** The candidates not yet removed, in order of arrival. */
    ghost var live: seq<Candidate>

    ghost predicate Valid()
      reads this
    {
      Serves(queue, live)
    }

    constructor ()
      ensures Valid() && live == []
    {
      queue, live := [], [];
    }

    method Enqueue(taskId: Id, worktreeId: Id, priority: int) returns (candidate: Candidate)
      requires Valid()
      modifies this
      ensures Valid() && candidate == Candidate(taskId, worktreeId, priority)
      ensures live == old(live) + [candidate]
      ensures Lands(old(queue), candidate, queue)
    {
      candidate := Candidate(taskId, worktreeId, priority);
      EnqueueServes(queue, live, candidate);
      EnqueueLands(queue, live, candidate);
      queue := queue + [candidate];
      queue := Sort(queue);
      live := live + [candidate];
    }

    method Dequeue() returns (item: Option<Candidate>)
      requires Valid()
      modifies this
      ensures Valid()
      ensures item.None? ==> old(live) == live == []
      ensures item.Some? ==>
        && item.value in old(live) && (forall c :: c in old(live) ==> c.priority <= item.value.priority)
        && Class(old(live), item.value.priority) != [] && Class(old(live), item.value.priority)[0] == item.value
        && live == RemoveFirst(old(live), item.value)
    {
      if queue == [] {
        SameCandidates(queue, live);
        assert Elems(live) == {};
        NoMembers(live);
        return None;
      }
      HeadIsOldestOfHighest(queue, live);
      RemoveServes(queue, live, 0);
      assert queue[..0] + queue[1..] == queue[1..];
      item := Some(queue[0]);
      queue := queue[1..];
      live := RemoveFirst(live, item.value);
    }

    /** Removes the oldest live candidate of a task among those of its highest priority. */
    method Cancel(taskId: Id) returns (cancelled: bool)
      requires Valid()
      modifies this
      ensures Valid()
      ensures cancelled <==> exists c :: c in old(live) && c.taskId == taskId
      ensures !cancelled ==> live == old(live)
      ensures cancelled ==> exists c ::
        && c in old(live) && c.taskId == taskId && live == RemoveFirst(old(live), c)
        && (forall d :: d in old(live) && d.taskId == taskId ==> d.priority <= c.priority)
        && FirstOf(Class(old(live), c.priority), taskId) == Some(c)
    {
      SameCandidates(queue, live);
      for i := 0 to |queue|
        invariant forall k :: 0 <= k < i ==> queue[k].taskId != taskId
        invariant queue == old(queue) && live == old(live)
      {
        if queue[i].taskId == taskId {
          ghost var c := queue[i];
          RemoveServes(queue, live, i);
          FirstInClass(queue, i);
          assert c in queue;
          forall d | d in live && d.taskId == taskId
            ensures d.priority <= c.priority
          {
            var k :| 0 <= k < |queue| && queue[k] == d;
          }
          live := RemoveFirst(live, c);
          queue := queue[..i] + queue[i + 1..];
          return true;
        }
      }
      cancelled := false;
    }
  }
}
