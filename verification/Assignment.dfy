/**
  Batch-aware task assignment (task_assignment_engine.ts) over the worker selection of
  department_orchestrator.ts and worker_store.ts.
*/
module Assignment {
  import opened Common

  datatype Department = Architecture | Backend | Frontend | QA | DevOps | Documentation | Research

  /** What selection sees of a worker in the store. */
  datatype WorkerView = WorkerView(id: Id, department: Department, skills: seq<string>, isBusy: bool)

  // ---------------------------------------------------------------- selecting a worker

  function ToLower(s: string): string {
    if s == [] then []
    else [if 'A' <= s[0] <= 'Z' then (s[0] as int + 32) as char else s[0]] + ToLower(s[1..])
  }

  predicate Matches(w: WorkerView, wanted: string) {
    exists skill | skill in w.skills :: skill == wanted || Includes(skill, wanted) || Includes(wanted, skill)
  }

  /** The workers that are not excluded and satisfy one of the two filters. */
  function Skilled(workers: seq<WorkerView>, wanted: string, excluded: set<Id>): (r: seq<WorkerView>)
    ensures forall w :: w in r <==> w in workers && w.id !in excluded && Matches(w, wanted)
  {
    if workers == [] then []
    else (if workers[0].id !in excluded && Matches(workers[0], wanted) then [workers[0]] else []) +
         Skilled(workers[1..], wanted, excluded)
  }

  function Members(workers: seq<WorkerView>, department: Department, excluded: set<Id>): (r: seq<WorkerView>)
    ensures forall w :: w in r <==> w in workers && w.id !in excluded && w.department == department
  {
    if workers == [] then []
    else (if workers[0].department == department && workers[0].id !in excluded then [workers[0]] else []) +
         Members(workers[1..], department, excluded)
  }

  function WithBusy(workers: seq<WorkerView>, isBusy: bool): (r: seq<WorkerView>)
    ensures forall w :: w in r <==> w in workers && w.isBusy == isBusy
  {
    if workers == [] then []
    else (if workers[0].isBusy == isBusy then [workers[0]] else []) + WithBusy(workers[1..], isBusy)
  }

  /** findBySkill: the head of a stable sort by "is busy". */
  function FindBySkill(workers: seq<WorkerView>, capability: string, excluded: set<Id>): Option<WorkerView> {
    var candidates := Skilled(workers, ToLower(capability), excluded);
    var sorted := WithBusy(candidates, false) + WithBusy(candidates, true);
    if sorted == [] then None else Some(sorted[0])
  }

  /** selectWorkerForTask: the first idle member, or else the first. */
  function SelectForTask(workers: seq<WorkerView>, department: Department, excluded: set<Id>): Option<WorkerView> {
    var members := Members(workers, department, excluded);
    var idle := WithBusy(members, false);
    if members == [] then None else Some(if idle != [] then idle[0] else members[0])
  }

  function DepartmentFor(capability: string): Department {
    if capability == "Architecture" then Architecture
    else if capability == "QA" then QA
    else if capability == "Documentation" then Documentation
    else Backend
  }

  /** Skill match among the unused, else an unused member of the department, else any member. */
  function Select(workers: seq<WorkerView>, capability: string, used: set<Id>): Option<WorkerView> {
    var skilled := FindBySkill(workers, capability, used);
    var unused := SelectForTask(workers, DepartmentFor(capability), used);
    if skilled.Some? then skilled else if unused.Some? then unused
    else SelectForTask(workers, DepartmentFor(capability), {})
  }

  ghost predicate Unused(workers: seq<WorkerView>, used: set<Id>, w: WorkerView) {
    w in workers && w.id !in used
  }

  /** Whether an unused worker has the skill or belongs to the target department. */
  ghost predicate SomeoneUnused(workers: seq<WorkerView>, capability: string, used: set<Id>) {
    exists w :: Unused(workers, used, w) &&
      (Matches(w, ToLower(capability)) || w.department == DepartmentFor(capability))
  }

  /** w is the first worker of its kind (idle or busy) that the filter lets through. */
  ghost predicate FirstOfKind(workers: seq<WorkerView>, w: WorkerView, allowed: seq<WorkerView>) {
    exists k :: 0 <= k < |workers| && workers[k] == w && w in allowed &&
      forall j :: 0 <= j < k ==> !(workers[j] in allowed && workers[j].isBusy == w.isBusy)
  }

  lemma {:induction false} HeadOfSkilled(workers: seq<WorkerView>, wanted: string, excluded: set<Id>, isBusy: bool)
    ensures var kind := WithBusy(Skilled(workers, wanted, excluded), isBusy);
      kind != [] ==> FirstOfKind(workers, kind[0], Skilled(workers, wanted, excluded))
  {
    hide Matches;
    var all := Skilled(workers, wanted, excluded);
    var kind := WithBusy(all, isBusy);
    if workers != [] {
      HeadOfSkilled(workers[1..], wanted, excluded, isBusy);
      var rest := Skilled(workers[1..], wanted, excluded);
      assert all == (if |all| > |rest| then [workers[0]] else []) + rest;
      assert |all| > |rest| ==> all[1..] == rest;
      HeadStep(workers, all, rest, isBusy);
    }
  }

  lemma {:induction false} HeadOfMembers(workers: seq<WorkerView>, department: Department, excluded: set<Id>,
                                         isBusy: bool)
    ensures var kind := WithBusy(Members(workers, department, excluded), isBusy);
      kind != [] ==> FirstOfKind(workers, kind[0], Members(workers, department, excluded))
  {
    var all := Members(workers, department, excluded);
    var kind := WithBusy(all, isBusy);
    if workers != [] {
      HeadOfMembers(workers[1..], department, excluded, isBusy);
      var rest := Members(workers[1..], department, excluded);
      assert all == (if |all| > |rest| then [workers[0]] else []) + rest;
      assert |all| > |rest| ==> all[1..] == rest;
      HeadStep(workers, all, rest, isBusy);
    }
  }

  lemma HeadStep(workers: seq<WorkerView>, all: seq<WorkerView>, rest: seq<WorkerView>, isBusy: bool)
    requires workers != [] && (all == rest || all == [workers[0]] + rest)
    requires all == rest ==> workers[0] !in all
    requires WithBusy(rest, isBusy) != [] ==> FirstOfKind(workers[1..], WithBusy(rest, isBusy)[0], rest)
    ensures WithBusy(all, isBusy) != [] ==> FirstOfKind(workers, WithBusy(all, isBusy)[0], all)
  {
    if all == [workers[0]] + rest && workers[0].isBusy == isBusy {
      assert workers[0] == all[0] && WithBusy(all, isBusy)[0] == workers[0];
    } else if WithBusy(rest, isBusy) != [] {
      var w := WithBusy(rest, isBusy)[0];
      assert w in WithBusy(rest, isBusy);
      assert all != rest ==> all[1..] == rest;
      LaterIsFirst(workers, w, all, rest);
    }
  }

  lemma LaterIsFirst(workers: seq<WorkerView>, w: WorkerView, all: seq<WorkerView>, rest: seq<WorkerView>)
    requires workers != [] && FirstOfKind(workers[1..], w, rest)
    requires forall x :: x in rest ==> x in all
    requires forall x :: x in all ==> x in rest || x == workers[0]
    requires workers[0] in all ==> workers[0].isBusy != w.isBusy
    ensures FirstOfKind(workers, w, all)
  {
    var k :| 0 <= k < |workers[1..]| && workers[1..][k] == w && w in rest &&
      forall j :: 0 <= j < k ==> !(workers[1..][j] in rest && workers[1..][j].isBusy == w.isBusy);
    forall j | 0 <= j < k + 1
      ensures !(workers[j] in all && workers[j].isBusy == w.isBusy)
    {
      assert j > 0 ==> workers[j] == workers[1..][j - 1];
    }
    assert workers[k + 1] == w;
  }

  /** findBySkill picks the first idle match in store order, or the first match if none is idle. */
  lemma SkillChoiceIsFirstIdle(workers: seq<WorkerView>, capability: string, used: set<Id>)
    ensures var r, all := FindBySkill(workers, capability, used), Skilled(workers, ToLower(capability), used);
      r.Some? ==> FirstOfKind(workers, r.value, all) && (r.value.isBusy ==> forall w :: w in all ==> w.isBusy)
  {
    var all := Skilled(workers, ToLower(capability), used);
    HeadOfSkilled(workers, ToLower(capability), used, false);
    HeadOfSkilled(workers, ToLower(capability), used, true);
    hide FirstOfKind, ToLower, Skilled;
    IdleFirst(all);
  }

  /** selectWorkerForTask picks the first idle member in store order, or the first member if none is idle. */
  lemma MemberChoiceIsFirstIdle(workers: seq<WorkerView>, department: Department, used: set<Id>)
    ensures var r, all := SelectForTask(workers, department, used), Members(workers, department, used);
      r.Some? ==> FirstOfKind(workers, r.value, all) && (r.value.isBusy ==> forall w :: w in all ==> w.isBusy)
  {
    var all := Members(workers, department, used);
    HeadOfMembers(workers, department, used, false);
    HeadOfMembers(workers, department, used, true);
    hide FirstOfKind, Members;
    IdleFirst(all);
  }

  lemma IdleFirst(all: seq<WorkerView>)
    ensures WithBusy(all, false) == [] ==> WithBusy(all, true) == all && forall w :: w in all ==> w.isBusy
    ensures forall b :: WithBusy(all, b) != [] ==> WithBusy(all, b)[0] in all && WithBusy(all, b)[0].isBusy == b
  {
    forall b | WithBusy(all, b) != []
      ensures WithBusy(all, b)[0] in all && WithBusy(all, b)[0].isBusy == b
    {
      assert WithBusy(all, b)[0] in WithBusy(all, b);
    }
    if WithBusy(all, false) == [] {
      assert forall w :: w in all && !w.isBusy ==> w in WithBusy(all, false);
      AllBusy(all);
    }
  }

  lemma {:induction false} AllBusy(all: seq<WorkerView>)
    requires forall w :: w in all ==> w.isBusy
    ensures WithBusy(all, true) == all
  {
    if all != [] {
      assert all[0] in all;
      AllBusy(all[1..]);
    }
  }

  lemma FindBySkillFacts(workers: seq<WorkerView>, capability: string, used: set<Id>)
    ensures var r := FindBySkill(workers, capability, used);
      if r.Some? then Unused(workers, used, r.value) && Matches(r.value, ToLower(capability))
      else forall w :: Unused(workers, used, w) ==> !Matches(w, ToLower(capability))
  {
    var candidates := Skilled(workers, ToLower(capability), used);
    var sorted := WithBusy(candidates, false) + WithBusy(candidates, true);
    assert forall w :: w in sorted <==> w in candidates;
    assert sorted != [] ==> sorted[0] in sorted;
    hide Matches, ToLower;
  }

  lemma SelectForTaskFacts(workers: seq<WorkerView>, department: Department, used: set<Id>)
    ensures var r := SelectForTask(workers, department, used);
      if r.Some? then Unused(workers, used, r.value) && r.value.department == department
      else forall w :: Unused(workers, used, w) ==> w.department != department
  {
    var members := Members(workers, department, used);
    var idle := WithBusy(members, false);
    assert idle != [] ==> idle[0] in idle;
    assert members != [] ==> members[0] in members;
  }

  /**
    A worker already used in the batch is chosen only if no unused worker matches the skill or
    belongs to the department; nobody is chosen only if the department is empty as well.
  */
  lemma ReuseOnlyWhenForced(workers: seq<WorkerView>, capability: string, used: set<Id>)
    ensures var r := Select(workers, capability, used);
      && (r.Some? ==> r.value in workers)
      && (SomeoneUnused(workers, capability, used) <==> r.Some? && r.value.id !in used)
      && (r.None? ==> Members(workers, DepartmentFor(capability), {}) == [])
  {
    hide FindBySkill, SelectForTask, Matches, DepartmentFor, ToLower;
    var d := DepartmentFor(capability);
    FindBySkillFacts(workers, capability, used);
    SelectForTaskFacts(workers, d, used);
    SelectForTaskFacts(workers, d, {});
    assert forall w :: w in workers ==> Unused(workers, {}, w);
    assert Elems(Members(workers, d, {})) == {} || exists w :: w in Members(workers, d, {});
    NoMembers(Members(workers, d, {}));
  }

  // ---------------------------------------------------------------- what selection goes by

  /** Lower-casing changes capital letters to their small ones, and nothing else. */
  lemma {:induction false} ToLowerMeans(s: string)
    ensures |ToLower(s)| == |s|
    ensures forall i :: 0 <= i < |s| ==>
      if 'A' <= s[i] <= 'Z' then SameLetter(s[i], ToLower(s)[i]) else ToLower(s)[i] == s[i]
  {
    if s != [] {
      ToLowerMeans(s[1..]);
      assert forall i :: 0 < i < |s| ==> s[i] == s[1..][i - 1] && ToLower(s)[i] == ToLower(s[1..])[i - 1];
    }
  }

  /** So letters alone, not their case, decide which workers a capability finds. */
  lemma CaseIsIgnored(workers: seq<WorkerView>, a: string, b: string, excluded: set<Id>)
    requires |a| == |b|
    requires forall i :: 0 <= i < |a| ==> a[i] == b[i] || SameLetter(a[i], b[i]) || SameLetter(b[i], a[i])
    ensures FindBySkill(workers, a, excluded) == FindBySkill(workers, b, excluded)
  {
    LowerAlike(a, b);
    hide ToLower, Skilled, SameLetter;
  }

  lemma LowerAlike(a: string, b: string)
    requires |a| == |b|
    requires forall i :: 0 <= i < |a| ==> a[i] == b[i] || SameLetter(a[i], b[i]) || SameLetter(b[i], a[i])
    ensures ToLower(a) == ToLower(b)
  {
    ToLowerMeans(a);
    ToLowerMeans(b);
    hide ToLower;
    forall i | 0 <= i < |a|
      ensures ToLower(a)[i] == ToLower(b)[i]
    {
    }
  }

  predicate SameLetter(capital: char, small: char) {
    'A' <= capital <= 'Z' && 'a' <= small <= 'z' && capital as int - 'A' as int == small as int - 'a' as int
  }

  ghost predicate Holds(text: string, part: string) {
    exists before, after :: text == before + part + after
  }

  /** A skill fits when it is the wanted text, holds it, or is held by it. */
  lemma MatchesMeans(w: WorkerView, wanted: string)
    ensures Matches(w, wanted) <==> exists skill :: skill in w.skills && (Holds(skill, wanted) || Holds(wanted, skill))
  {
    forall skill | skill in w.skills
      ensures skill == wanted ==> Includes(skill, wanted)
      ensures Includes(skill, wanted) <==> Holds(skill, wanted)
      ensures Includes(wanted, skill) <==> Holds(wanted, skill)
    {
      IncludesMeans(skill, wanted);
      IncludesMeans(wanted, skill);
      assert wanted == "" + wanted + "";
    }
    hide Includes, Holds;
  }

  ghost predicate UnusedSkill(workers: seq<WorkerView>, capability: string, used: set<Id>, w: WorkerView) {
    Unused(workers, used, w) && Matches(w, ToLower(capability))
  }

  ghost predicate UnusedMember(workers: seq<WorkerView>, capability: string, used: set<Id>, w: WorkerView) {
    Unused(workers, used, w) && w.department == DepartmentFor(capability)
  }

  /**
    The three preferences: an unused worker with the skill, whatever its department; without one an
    unused member of the department; without one any member.  In each group the first idle one, or
    the first.
  */
  lemma SkillComesFirst(workers: seq<WorkerView>, capability: string, used: set<Id>)
    ensures var r, d := Select(workers, capability, used), DepartmentFor(capability);
      if exists w :: UnusedSkill(workers, capability, used, w) then
        r.Some? && UnusedSkill(workers, capability, used, r.value) && r == FindBySkill(workers, capability, used)
      else if exists w :: UnusedMember(workers, capability, used, w) then
        r.Some? && UnusedMember(workers, capability, used, r.value) && r == SelectForTask(workers, d, used)
      else if exists w :: w in workers && w.department == d then
        r.Some? && r.value in workers && r.value.department == d && r == SelectForTask(workers, d, {})
      else r.None?
  {
    hide FindBySkill, SelectForTask, Matches, DepartmentFor, ToLower;
    FindBySkillFacts(workers, capability, used);
    SelectForTaskFacts(workers, DepartmentFor(capability), used);
    SelectForTaskFacts(workers, DepartmentFor(capability), {});
    assert forall w :: w in workers ==> Unused(workers, {}, w);
  }

  /** Three capabilities have a department of their own; every other one, spelled exactly so or not, goes to Backend. */
  lemma DepartmentsOfCapabilities(capability: string)
    ensures DepartmentFor(capability) == Architecture <==> capability == "Architecture"
    ensures DepartmentFor(capability) == QA <==> capability == "QA"
    ensures DepartmentFor(capability) == Documentation <==> capability == "Documentation"
    ensures DepartmentFor(capability) == Backend <==> capability !in {"Architecture", "QA", "Documentation"}
  {
  }

  /** What is recorded of an assignment: the task, the department of its capability and the worker selected for it. */
  lemma AssignRecords(workers: seq<WorkerView>, capabilities: map<Id, string>, used: set<Id>, t: Id, a: Assigned)
    ensures a in Assign(workers, capabilities, used, t) <==>
      && t in capabilities && Select(workers, capabilities[t], used).Some?
      && a.taskId == t && a.department == DepartmentFor(capabilities[t])
      && a.workerId == Select(workers, capabilities[t], used).value.id
  {
    hide Select, DepartmentFor;
  }

  // ---------------------------------------------------------------- one batch

  datatype Assigned = Assigned(taskId: Id, department: Department, workerId: Id)

  function WorkersOf(log: seq<Assigned>): set<Id> {
    set a | a in log :: a.workerId
  }

  /** The assignments of the first tasks of a batch; capabilities holds the plan's tasks by id. */
  function BatchLog(workers: seq<WorkerView>, capabilities: map<Id, string>, batch: seq<Id>): seq<Assigned> {
    if batch == [] then []
    else
      var before, t := BatchLog(workers, capabilities, batch[..|batch| - 1]), batch[|batch| - 1];
      before + Assign(workers, capabilities, WorkersOf(before), t)
  }

  function Assign(workers: seq<WorkerView>, capabilities: map<Id, string>, used: set<Id>, t: Id): seq<Assigned> {
    if t !in capabilities then []
    else
      match Select(workers, capabilities[t], used)
      case None => []
      case Some(w) => [Assigned(t, DepartmentFor(capabilities[t]), w.id)]
  }

  function PlanLog(workers: seq<WorkerView>, capabilities: map<Id, string>, batches: seq<seq<Id>>): seq<Assigned> {
    if batches == [] then []
    else
      var last := |batches| - 1;
      PlanLog(workers, capabilities, batches[..last]) + BatchLog(workers, capabilities, batches[last])
  }

  ghost predicate DistinctWorkers(log: seq<Assigned>) {
    forall i, j :: 0 <= i < j < |log| ==> log[i].workerId != log[j].workerId
  }

  ghost predicate UniqueIds(workers: seq<WorkerView>) {
    forall i, j :: 0 <= i < j < |workers| ==> workers[i].id != workers[j].id
  }

  /** The target department of each task of the batch has at least n members. */
  ghost predicate Staffed(workers: seq<WorkerView>, capabilities: map<Id, string>, batch: seq<Id>, n: nat) {
    forall t :: t in batch && t in capabilities ==> |Members(workers, DepartmentFor(capabilities[t]), {})| >= n
  }

  ghost function IdsOf(workers: seq<WorkerView>): set<Id> {
    set w | w in workers :: w.id
  }

  lemma {:induction false} MembersUnique(workers: seq<WorkerView>, department: Department)
    requires UniqueIds(workers)
    ensures UniqueIds(Members(workers, department, {}))
  {
    if workers != [] {
      MembersUnique(workers[1..], department);
      var rest := Members(workers[1..], department, {});
      assert forall i :: 0 <= i < |rest| ==> rest[i] in workers[1..];
    }
  }

  lemma {:induction false} IdsCount(workers: seq<WorkerView>)
    requires UniqueIds(workers)
    ensures |IdsOf(workers)| == |workers|
  {
    if workers != [] {
      IdsCount(workers[1..]);
      IdsPush(workers[0], workers[1..]);
      assert workers == [workers[0]] + workers[1..];
      assert workers[0].id !in IdsOf(workers[1..]);
    }
  }

  lemma IdsPush(w: WorkerView, rest: seq<WorkerView>)
    ensures IdsOf([w] + rest) == {w.id} + IdsOf(rest)
  {
  }

  lemma {:induction false} WorkersAtMost(log: seq<Assigned>)
    ensures |WorkersOf(log)| <= |log|
  {
    if log != [] {
      WorkersAtMost(log[1..]);
      assert WorkersOf(log) == {log[0].workerId} + WorkersOf(log[1..]);
    }
  }

  /** With more members than workers used, somebody in the department is unused. */
  lemma SpareMember(workers: seq<WorkerView>, capability: string, used: set<Id>)
    requires UniqueIds(workers) && |used| < |Members(workers, DepartmentFor(capability), {})|
    ensures SomeoneUnused(workers, capability, used)
  {
    var members := Members(workers, DepartmentFor(capability), {});
    MembersUnique(workers, DepartmentFor(capability));
    IdsCount(members);
    if IdsOf(members) <= used {
      SubsetSize(IdsOf(members), used);
    }
    var id :| id in IdsOf(members) && id !in used;
    var w :| w in members && w.id == id;
    assert Unused(workers, used, w);
  }

  ghost predicate Covered(log: seq<Assigned>, t: Id) {
    exists a :: a in log && a.taskId == t
  }

  lemma StaffedStep(workers: seq<WorkerView>, capabilities: map<Id, string>, before: seq<Assigned>, t: Id)
    requires UniqueIds(workers) && DistinctWorkers(before)
    requires t in capabilities ==> |before| < |Members(workers, DepartmentFor(capabilities[t]), {})|
    ensures var more := Assign(workers, capabilities, WorkersOf(before), t);
      && DistinctWorkers(before + more) && |more| <= 1 && (t in capabilities ==> Covered(more, t))
  {
    hide Select, DepartmentFor, Members, SomeoneUnused, UniqueIds;
    if t in capabilities {
      WorkersAtMost(before);
      SpareMember(workers, capabilities[t], WorkersOf(before));
      ReuseOnlyWhenForced(workers, capabilities[t], WorkersOf(before));
      var more := Assign(workers, capabilities, WorkersOf(before), t);
      assert more[0].taskId == t && more[0] in more;
      assert forall a :: a in before ==> a.workerId in WorkersOf(before);
    }
  }

  /**
    If every target department has at least as many members as the batch has tasks, every task of
    the batch is assigned and all chosen workers are distinct.
  */
  lemma {:induction false} StaffedBatchesDoNotDouble(workers: seq<WorkerView>, capabilities: map<Id, string>,
                                                     batch: seq<Id>, n: nat)
    requires UniqueIds(workers) && |batch| <= n && Staffed(workers, capabilities, batch, n)
    ensures var log := BatchLog(workers, capabilities, batch);
      && DistinctWorkers(log) && |log| <= |batch|
      && forall t :: t in batch && t in capabilities ==> Covered(log, t)
  {
    if batch != [] {
      hide UniqueIds, DistinctWorkers, Assign, Members, DepartmentFor, Covered;
      var start, t := batch[..|batch| - 1], batch[|batch| - 1];
      var before := BatchLog(workers, capabilities, start);
      assert batch == start + [t] && t in batch;
      StaffedBatchesDoNotDouble(workers, capabilities, start, n);
      StaffedStep(workers, capabilities, before, t);
      CoveredStays(before, Assign(workers, capabilities, WorkersOf(before), t));
    }
  }

  lemma CoveredStays(a: seq<Assigned>, b: seq<Assigned>)
    ensures forall t :: Covered(a, t) || Covered(b, t) ==> Covered(a + b, t)
  {
    assert forall x :: x in a || x in b ==> x in a + b;
  }

  // ---------------------------------------------------------------- the two indexes

  function TasksOfWorker(log: seq<Assigned>, workerId: Id): seq<Id> {
    if log == [] then []
    else
      var last := log[|log| - 1];
      TasksOfWorker(log[..|log| - 1], workerId) + if last.workerId == workerId then [last.taskId] else []
  }

  function TasksOfDepartment(log: seq<Assigned>, department: Department): seq<Id> {
    if log == [] then []
    else
      var last := log[|log| - 1];
      TasksOfDepartment(log[..|log| - 1], department) + if last.department == department then [last.taskId] else []
  }

  /** An index lists under each key exactly the tasks assigned to it, in order, and has no other keys. */
  ghost predicate WorkerIndex(index: map<Id, seq<Id>>, log: seq<Assigned>) {
    && index.Keys == WorkersOf(log)
    && forall w :: w in index ==> index[w] == TasksOfWorker(log, w)
  }

  ghost predicate DepartmentIndex(index: map<Department, seq<Id>>, log: seq<Assigned>) {
    && index.Keys == (set a | a in log :: a.department)
    && forall d :: d in index ==> index[d] == TasksOfDepartment(log, d)
  }

  /** What the tasks themselves record: the last assignment made to each. */
  ghost predicate OnTasks(taskFields: map<Id, (Department, Id)>, log: seq<Assigned>) {
    && taskFields.Keys == (set a | a in log :: a.taskId)
    && forall i :: 0 <= i < |log| && (forall j :: i < j < |log| ==> log[j].taskId != log[i].taskId) ==>
         log[i].taskId in taskFields && taskFields[log[i].taskId] == (log[i].department, log[i].workerId)
  }

  lemma {:induction false} TasksOfWorkerAre(log: seq<Assigned>, w: Id)
    ensures forall t :: t in TasksOfWorker(log, w) <==> exists a :: a in log && a.workerId == w && a.taskId == t
  {
    if log != [] {
      var before, last := log[..|log| - 1], log[|log| - 1];
      TasksOfWorkerAre(before, w);
      assert forall a :: a in log <==> a in before || a == last;
    }
  }

  lemma {:induction false} TasksOfDepartmentAre(log: seq<Assigned>, d: Department)
    ensures forall t :: t in TasksOfDepartment(log, d) <==> exists a :: a in log && a.department == d && a.taskId == t
  {
    if log != [] {
      var before, last := log[..|log| - 1], log[|log| - 1];
      TasksOfDepartmentAre(before, d);
      assert forall a :: a in log <==> a in before || a == last;
    }
  }

  function TaskIds(log: seq<Assigned>): seq<Id> {
    if log == [] then [] else TaskIds(log[..|log| - 1]) + [log[|log| - 1].taskId]
  }

  /** Both indexes list their tasks in the order of the assignments. */
  lemma {:induction false} IndexesKeepOrder(log: seq<Assigned>, w: Id, d: Department)
    ensures Subsequence(TasksOfWorker(log, w), TaskIds(log)) && Subsequence(TasksOfDepartment(log, d), TaskIds(log))
  {
    if log != [] {
      var before, t := log[..|log| - 1], log[|log| - 1].taskId;
      IndexesKeepOrder(before, w, d);
      hide Subsequence;
      SubsequencePush(TasksOfWorker(before, w), TaskIds(before), t);
      SubsequencePush(TasksOfDepartment(before, d), TaskIds(before), t);
      assert TasksOfWorker(before, w) + [] == TasksOfWorker(before, w);
      assert TasksOfDepartment(before, d) + [] == TasksOfDepartment(before, d);
    }
  }

  lemma {:induction false} TaskIdsConcat(a: seq<Assigned>, b: seq<Assigned>)
    ensures TaskIds(a + b) == TaskIds(a) + TaskIds(b)
  {
    if b == [] {
      assert a + b == a;
    } else {
      TaskIdsConcat(a, b[..|b| - 1]);
      assert (a + b)[..|a + b| - 1] == a + b[..|b| - 1];
    }
  }

  function AllOf(batches: seq<seq<Id>>): seq<Id> {
    if batches == [] then [] else AllOf(batches[..|batches| - 1]) + batches[|batches| - 1]
  }

  lemma {:induction false} BatchInOrder(workers: seq<WorkerView>, capabilities: map<Id, string>, batch: seq<Id>)
    ensures Subsequence(TaskIds(BatchLog(workers, capabilities, batch)), batch)
  {
    if batch == [] {
      assert TaskIds([]) == [];
    } else {
      var start, t := batch[..|batch| - 1], batch[|batch| - 1];
      var before := BatchLog(workers, capabilities, start);
      var more := Assign(workers, capabilities, WorkersOf(before), t);
      assert BatchLog(workers, capabilities, batch) == before + more;
      BatchInOrder(workers, capabilities, start);
      AtMostTheTask(workers, capabilities, WorkersOf(before), t);
      hide Assign, BatchLog, WorkersOf;
      PushInOrder(before, start, more, t);
      assert start + [t] == batch;
    }
  }

  lemma PushInOrder(before: seq<Assigned>, start: seq<Id>, more: seq<Assigned>, t: Id)
    requires Subsequence(TaskIds(before), start) && (TaskIds(more) == [] || TaskIds(more) == [t])
    ensures Subsequence(TaskIds(before + more), start + [t])
  {
    hide TaskIds, Subsequence;
    TaskIdsConcat(before, more);
    SubsequencePush(TaskIds(before), start, t);
    assert TaskIds(before) + [] == TaskIds(before);
  }

  lemma AtMostTheTask(workers: seq<WorkerView>, capabilities: map<Id, string>, used: set<Id>, t: Id)
    ensures var ids := TaskIds(Assign(workers, capabilities, used, t)); ids == [] || ids == [t]
  {
    hide Select, DepartmentFor;
    var more := Assign(workers, capabilities, used, t);
    if more != [] {
      assert more[..|more| - 1] == [] && TaskIds([]) == [];
    }
  }

  /** The assignments are made batch by batch and, in a batch, in its order. */
  lemma {:induction false} PlanInOrder(workers: seq<WorkerView>, capabilities: map<Id, string>, batches: seq<seq<Id>>)
    ensures Subsequence(TaskIds(PlanLog(workers, capabilities, batches)), AllOf(batches))
  {
    if batches != [] {
      var last := |batches| - 1;
      var before := PlanLog(workers, capabilities, batches[..last]);
      var more := BatchLog(workers, capabilities, batches[last]);
      PlanInOrder(workers, capabilities, batches[..last]);
      BatchInOrder(workers, capabilities, batches[last]);
      TaskIdsConcat(before, more);
      SubsequenceConcat(TaskIds(before), AllOf(batches[..last]), TaskIds(more), batches[last]);
    } else {
      assert TaskIds([]) == [];
    }
  }

  ghost predicate EachTaskOnce(log: seq<Assigned>) {
    forall i, j :: 0 <= i < j < |log| ==> log[i].taskId != log[j].taskId
  }

  /** The batches list each task id at most once. */
  ghost predicate ListedOnce(batches: seq<seq<Id>>) {
    && (forall k :: 0 <= k < |batches| ==> NoDup(batches[k]))
    && (forall j, k, t :: 0 <= j < k < |batches| && t in batches[j] ==> t !in batches[k])
  }

  ghost predicate TasksIn(log: seq<Assigned>, ids: set<Id>) {
    forall a :: a in log ==> a.taskId in ids
  }

  lemma AppendOnce(a: seq<Assigned>, b: seq<Assigned>, ids: set<Id>, more: set<Id>)
    requires EachTaskOnce(a) && EachTaskOnce(b) && TasksIn(a, ids) && TasksIn(b, more) && ids !! more
    ensures EachTaskOnce(a + b) && TasksIn(a + b, ids + more)
  {
    assert forall i :: 0 <= i < |a| ==> a[i].taskId in ids;
    assert forall i :: 0 <= i < |b| ==> b[i].taskId in more;
  }

  lemma {:induction false} BatchLogOnce(workers: seq<WorkerView>, capabilities: map<Id, string>, batch: seq<Id>)
    requires NoDup(batch)
    ensures EachTaskOnce(BatchLog(workers, capabilities, batch)) &&
      TasksIn(BatchLog(workers, capabilities, batch), Elems(batch))
  {
    if batch != [] {
      hide Select, DepartmentFor;
      var start, t := batch[..|batch| - 1], batch[|batch| - 1];
      var before := BatchLog(workers, capabilities, start);
      BatchLogOnce(workers, capabilities, start);
      PrefixStep(batch, |batch| - 1);
      assert batch[..|batch|] == batch;
      AppendOnce(before, Assign(workers, capabilities, WorkersOf(before), t), Elems(start), {t});
    }
  }

  ghost function Listed(batches: seq<seq<Id>>): set<Id> {
    set k, t | 0 <= k < |batches| && t in batches[k] :: t
  }

  /** Where the batches list each id once, no task is assigned twice. */
  lemma {:induction false} PlanLogOnce(workers: seq<WorkerView>, capabilities: map<Id, string>, batches: seq<seq<Id>>)
    requires ListedOnce(batches)
    ensures EachTaskOnce(PlanLog(workers, capabilities, batches)) &&
      TasksIn(PlanLog(workers, capabilities, batches), Listed(batches))
  {
    if batches != [] {
      hide BatchLog, EachTaskOnce;
      var start, last := batches[..|batches| - 1], batches[|batches| - 1];
      PlanLogOnce(workers, capabilities, start);
      BatchLogOnce(workers, capabilities, last);
      assert Listed(start) !! Elems(last);
      AppendOnce(PlanLog(workers, capabilities, start), BatchLog(workers, capabilities, last), Listed(start),
        Elems(last));
      assert Listed(start) + Elems(last) <= Listed(batches);
    } else {
      assert PlanLog(workers, capabilities, batches) == [];
    }
  }

  /** Each index lists a task under a key exactly when the task itself records that key. */
  ghost predicate Inverse(taskFields: map<Id, (Department, Id)>, departmentIndex: map<Department, seq<Id>>,
                          workerIndex: map<Id, seq<Id>>) {
    forall t :: InverseAt(taskFields, departmentIndex, workerIndex, t)
  }

  ghost predicate InverseAt(taskFields: map<Id, (Department, Id)>, departmentIndex: map<Department, seq<Id>>,
                            workerIndex: map<Id, seq<Id>>, t: Id) {
    && (forall w :: (w in workerIndex && t in workerIndex[w]) <==> (t in taskFields && taskFields[t].1 == w))
    && (forall d :: (d in departmentIndex && t in departmentIndex[d]) <==> (t in taskFields && taskFields[t].0 == d))
  }

  /** Batches that list each task once make both indexes exact inverses of what the tasks record. */
  lemma PlanIndexesAreInverse(workers: seq<WorkerView>, capabilities: map<Id, string>, batches: seq<seq<Id>>,
                              taskFields: map<Id, (Department, Id)>, departmentIndex: map<Department, seq<Id>>,
                              workerIndex: map<Id, seq<Id>>)
    requires ListedOnce(batches)
    requires var log := PlanLog(workers, capabilities, batches);
      OnTasks(taskFields, log) && DepartmentIndex(departmentIndex, log) && WorkerIndex(workerIndex, log)
    ensures Inverse(taskFields, departmentIndex, workerIndex)
  {
    PlanLogOnce(workers, capabilities, batches);
    hide OnTasks, DepartmentIndex, WorkerIndex, EachTaskOnce, PlanLog, InverseAt;
    forall t
      ensures InverseAt(taskFields, departmentIndex, workerIndex, t)
    {
      IndexesAreInverse(PlanLog(workers, capabilities, batches), taskFields, workerIndex, departmentIndex, t);
    }
  }

  /** With each task assigned once, both indexes are exact inverses of what the tasks record. */
  lemma IndexesAreInverse(log: seq<Assigned>, taskFields: map<Id, (Department, Id)>, workerIndex: map<Id, seq<Id>>,
                          departmentIndex: map<Department, seq<Id>>, t: Id)
    requires EachTaskOnce(log) && OnTasks(taskFields, log)
    requires WorkerIndex(workerIndex, log) && DepartmentIndex(departmentIndex, log)
    ensures InverseAt(taskFields, departmentIndex, workerIndex, t)
  {
    assert forall a :: a in log ==> a.taskId in taskFields && taskFields[a.taskId] == (a.department, a.workerId);
    hide EachTaskOnce;
    forall w
      ensures (w in workerIndex && t in workerIndex[w]) <==> (t in taskFields && taskFields[t].1 == w)
    {
      TasksOfWorkerAre(log, w);
      assert t in taskFields ==> exists a :: a in log && a.taskId == t;
    }
    forall d
      ensures (d in departmentIndex && t in departmentIndex[d]) <==> (t in taskFields && taskFields[t].0 == d)
    {
      TasksOfDepartmentAre(log, d);
      assert t in taskFields ==> exists a :: a in log && a.taskId == t;
    }
  }

  // ---------------------------------------------------------------- the engine

  method AssignPlanTasks(workers: seq<WorkerView>, capabilities: map<Id, string>, batches: seq<seq<Id>>)
    returns (taskFields: map<Id, (Department, Id)>, departmentAssignments: map<Department, seq<Id>>,
             workerAssignments: map<Id, seq<Id>>)
    ensures var log := PlanLog(workers, capabilities, batches);
      OnTasks(taskFields, log) && DepartmentIndex(departmentAssignments, log) && WorkerIndex(workerAssignments, log)
    ensures ListedOnce(batches) ==> Inverse(taskFields, departmentAssignments, workerAssignments)
  {
    hide BatchLog, OnTasks, DepartmentIndex, WorkerIndex, Inverse, ListedOnce;
    taskFields, departmentAssignments, workerAssignments := map[], map[], map[];
    NothingRecorded();
    ghost var log := [];
    for b := 0 to |batches|
      invariant log == PlanLog(workers, capabilities, batches[..b]) && OnTasks(taskFields, log)
      invariant DepartmentIndex(departmentAssignments, log) && WorkerIndex(workerAssignments, log)
    {
      taskFields, departmentAssignments, workerAssignments :=
        AssignBatch(workers, capabilities, batches[b], taskFields, departmentAssignments, workerAssignments, log);
      log := log + BatchLog(workers, capabilities, batches[b]);
      assert batches[..b + 1][..b] == batches[..b];
    }
    assert batches[..|batches|] == batches;
    if ListedOnce(batches) {
      PlanIndexesAreInverse(workers, capabilities, batches, taskFields, departmentAssignments, workerAssignments);
    }
  }

  /** One batch; usedInThisBatch starts empty. */
  method AssignBatch(workers: seq<WorkerView>, capabilities: map<Id, string>, batch: seq<Id>,
                     taskFields0: map<Id, (Department, Id)>, departments0: map<Department, seq<Id>>,
                     workers0: map<Id, seq<Id>>, ghost log0: seq<Assigned>)
    returns (taskFields: map<Id, (Department, Id)>, departmentAssignments: map<Department, seq<Id>>,
             workerAssignments: map<Id, seq<Id>>)
    requires OnTasks(taskFields0, log0) && DepartmentIndex(departments0, log0) && WorkerIndex(workers0, log0)
    ensures var log := log0 + BatchLog(workers, capabilities, batch);
      OnTasks(taskFields, log) && DepartmentIndex(departmentAssignments, log) && WorkerIndex(workerAssignments, log)
  {
    hide Select, BatchLog, DepartmentFor, OnTasks, DepartmentIndex, WorkerIndex, Append, WorkersOf;
    taskFields, departmentAssignments, workerAssignments := taskFields0, departments0, workers0;
    ghost var made, log := [], log0;
    var usedInThisBatch := {};
    EmptyBatch(workers, capabilities, batch);
    for i := 0 to |batch|
      invariant made == BatchLog(workers, capabilities, batch[..i]) && usedInThisBatch == WorkersOf(made)
      invariant log == log0 + made && OnTasks(taskFields, log)
      invariant DepartmentIndex(departmentAssignments, log) && WorkerIndex(workerAssignments, log)
    {
      var taskId := batch[i];
      BatchStep(workers, capabilities, batch, i);
      if taskId in capabilities {
        var target := DepartmentFor(capabilities[taskId]);
        var selection := Select(workers, capabilities[taskId], usedInThisBatch);
        if selection.Some? {
          var workerId := selection.value.id;
          ghost var a := Assigned(taskId, target, workerId);
          RecordOne(log, taskFields, departmentAssignments, workerAssignments, a);
          OneMoreWorker(made, a);
          usedInThisBatch := usedInThisBatch + {workerId};
          taskFields := taskFields[taskId := (target, workerId)];
          departmentAssignments := Append(departmentAssignments, target, taskId);
          workerAssignments := Append(workerAssignments, workerId, taskId);
          made := made + [a];
          log := log + [a];
        }
      }
    }
    assert batch[..|batch|] == batch;
  }

  /** Pushes onto the list under a key, creating the list first when there is none. */
  function Append<K>(index: map<K, seq<Id>>, key: K, taskId: Id): map<K, seq<Id>> {
    index[key := (if key in index then index[key] else []) + [taskId]]
  }

  lemma NothingRecorded()
    ensures OnTasks(map[], []) && DepartmentIndex(map[], []) && WorkerIndex(map[], [])
  {
  }

  lemma EmptyBatch(workers: seq<WorkerView>, capabilities: map<Id, string>, batch: seq<Id>)
    ensures BatchLog(workers, capabilities, batch[..0]) == [] && WorkersOf([]) == {}
  {
  }

  lemma BatchStep(workers: seq<WorkerView>, capabilities: map<Id, string>, batch: seq<Id>, i: nat)
    requires i < |batch|
    ensures var made := BatchLog(workers, capabilities, batch[..i]);
      BatchLog(workers, capabilities, batch[..i + 1]) == made + Assign(workers, capabilities, WorkersOf(made), batch[i])
  {
    assert batch[..i + 1][..i] == batch[..i];
    hide Assign;
  }

  lemma OneMoreWorker(made: seq<Assigned>, a: Assigned)
    ensures WorkersOf(made + [a]) == WorkersOf(made) + {a.workerId}
  {
  }

  lemma RecordOne(log: seq<Assigned>, taskFields: map<Id, (Department, Id)>, departments: map<Department, seq<Id>>,
                  workers: map<Id, seq<Id>>, a: Assigned)
    requires OnTasks(taskFields, log) && DepartmentIndex(departments, log) && WorkerIndex(workers, log)
    ensures OnTasks(taskFields[a.taskId := (a.department, a.workerId)], log + [a])
    ensures DepartmentIndex(Append(departments, a.department, a.taskId), log + [a])
    ensures WorkerIndex(Append(workers, a.workerId, a.taskId), log + [a])
  {
    RecordOnTask(log, taskFields, a);
    RecordOnDepartment(log, departments, a);
    RecordOnWorker(log, workers, a);
    hide OnTasks, DepartmentIndex, WorkerIndex;
  }

  lemma RecordOnTask(log: seq<Assigned>, taskFields: map<Id, (Department, Id)>, a: Assigned)
    requires OnTasks(taskFields, log)
    ensures OnTasks(taskFields[a.taskId := (a.department, a.workerId)], log + [a])
  {
    var after := log + [a];
    forall i | 0 <= i < |log| && (forall j :: i < j < |after| ==> after[j].taskId != after[i].taskId)
      ensures log[i].taskId != a.taskId && forall j :: i < j < |log| ==> log[j].taskId != log[i].taskId
    {
      assert after[|log|] == a && forall j :: i < j < |log| ==> after[j] == log[j];
    }
  }

  lemma RecordOnDepartment(log: seq<Assigned>, index: map<Department, seq<Id>>, a: Assigned)
    requires DepartmentIndex(index, log)
    ensures DepartmentIndex(Append(index, a.department, a.taskId), log + [a])
  {
    assert (log + [a])[..|log|] == log;
    forall d
      ensures d !in index ==> TasksOfDepartment(log, d) == []
    {
      TasksOfDepartmentAre(log, d);
      NoMembers(TasksOfDepartment(log, d));
      assert d !in index ==> Elems(TasksOfDepartment(log, d)) == {};
    }
  }

  lemma RecordOnWorker(log: seq<Assigned>, index: map<Id, seq<Id>>, a: Assigned)
    requires WorkerIndex(index, log)
    ensures WorkerIndex(Append(index, a.workerId, a.taskId), log + [a])
  {
    assert (log + [a])[..|log|] == log;
    forall w
      ensures w !in index ==> TasksOfWorker(log, w) == []
    {
      TasksOfWorkerAre(log, w);
      NoMembers(TasksOfWorker(log, w));
      assert w !in index ==> Elems(TasksOfWorker(log, w)) == {};
    }
  }
}
