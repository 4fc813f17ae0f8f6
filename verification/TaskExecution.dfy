/**
  Sub-task execution (task_execution_service.ts with patch_generator.ts and workspace_updater.ts):
  bounded retries, a commit after each success and a rollback after a failure.
*/
module TaskExecution {
  import opened Common

  type Path = Id

  /** The files of a working tree, by path. */
  type Files = map<Path, string>

  // ---------------------------------------------------------------- patches

  datatype Block = Block(fileName: Option<Path>, content: string)

  datatype Patch = Patch(fileName: Path, newContent: string)

  predicate IsSpace(c: char) {
    c == ' ' || c == '\t' || c == '\n' || c == '\r'
  }

  /** `String.trim`, for the four common white-space characters. */
  function Trim(s: string): string {
    if s == [] then s
    else if IsSpace(s[0]) then Trim(s[1..])
    else if IsSpace(s[|s| - 1]) then Trim(s[..|s| - 1])
    else s
  }

  lemma {:induction false} TrimTwice(s: string)
    ensures Trim(Trim(s)) == Trim(s)
    decreases |s|
  {
    if s != [] {
      if IsSpace(s[0]) {
        TrimTwice(s[1..]);
      } else if IsSpace(s[|s| - 1]) {
        TrimTwice(s[..|s| - 1]);
      }
    }
  }

  /** Trimming cuts off white space at both ends, all of it and nothing else. */
  lemma {:induction false} TrimMeans(s: string) returns (a: nat, b: nat)
    ensures a <= b <= |s| && Trim(s) == s[a..b]
    ensures forall i :: 0 <= i < a || b <= i < |s| ==> s[i] in {' ', '\t', '\n', '\r'}
    ensures a < b ==> s[a] !in {' ', '\t', '\n', '\r'} && s[b - 1] !in {' ', '\t', '\n', '\r'}
    decreases |s|
  {
    if s == [] {
      a, b := 0, 0;
    } else if IsSpace(s[0]) {
      var inner := s[1..];
      a, b := TrimMeans(inner);
      assert inner[a..b] == s[a + 1..b + 1];
      assert forall i :: 0 <= i < |inner| ==> inner[i] == s[i + 1];
      assert forall i :: 0 < i < a + 1 || b + 1 <= i < |s| ==> s[i] == inner[i - 1];
      a, b := a + 1, b + 1;
    } else if IsSpace(s[|s| - 1]) {
      var inner := s[..|s| - 1];
      a, b := TrimMeans(inner);
      assert inner[a..b] == s[a..b];
    } else {
      a, b := 0, |s|;
      assert s[a..b] == s;
    }
  }

  predicate EndsWith(s: string, suffix: string) {
    |suffix| <= |s| && s[|s| - |suffix|..] == suffix
  }

  /** The first allowed file that is the named one or ends with its name. */
  function MatchFile(allowed: seq<Path>, name: Path): Option<Path> {
    if allowed == [] then None
    else if allowed[0] == name || EndsWith(allowed[0].name, name.name) then Some(allowed[0])
    else MatchFile(allowed[1..], name)
  }

  /** The path reads as something followed by the name, so equal to it or ending with it. */
  ghost predicate Named(path: Path, name: Path) {
    exists before :: path.name == before + name.name
  }

  lemma NamedMeans(path: Path, name: Path)
    ensures Named(path, name) <==> path == name || EndsWith(path.name, name.name)
  {
    if before :| path.name == before + name.name {
      assert path.name[|path.name| - |name.name|..] == name.name;
    }
    if path == name {
      assert path.name == "" + name.name;
    } else if EndsWith(path.name, name.name) {
      assert path.name == path.name[..|path.name| - |name.name|] + name.name;
    }
  }

  ghost predicate FirstNamed(allowed: seq<Path>, name: Path, k: nat)
    requires k < |allowed|
  {
    Named(allowed[k], name) && forall j :: 0 <= j < k ==> !Named(allowed[j], name)
  }

  /** A block is matched to the first allowed file that its name names; to nothing if there is none. */
  lemma {:induction false} MatchMeans(allowed: seq<Path>, name: Path)
    ensures match MatchFile(allowed, name)
      case None => forall k :: 0 <= k < |allowed| ==> !Named(allowed[k], name)
      case Some(f) => exists k :: 0 <= k < |allowed| && allowed[k] == f && FirstNamed(allowed, name, k)
  {
    if allowed != [] {
      NamedMeans(allowed[0], name);
      var rest := allowed[1..];
      MatchMeans(rest, name);
      hide Named, EndsWith;
      assert forall j :: 0 < j < |allowed| ==> allowed[j] == rest[j - 1];
      if Named(allowed[0], name) {
        assert FirstNamed(allowed, name, 0);
      } else if MatchFile(rest, name).Some? {
        var k :| 0 <= k < |rest| && rest[k] == MatchFile(rest, name).value && FirstNamed(rest, name, k);
        assert allowed[k + 1] == rest[k] && FirstNamed(allowed, name, k + 1);
      }
    }
  }

  function PatchOf(block: Block, allowed: seq<Path>): Option<Patch> {
    if block.fileName.None? || block.fileName.value.name == "" then None
    else
      match MatchFile(allowed, block.fileName.value)
      case None => None
      case Some(f) => Some(Patch(f, Trim(block.content)))
  }

  /** All patches, or nothing if one block names no file or a file that is not allowed. */
  function PatchesOf(blocks: seq<Block>, allowed: seq<Path>): Option<seq<Patch>> {
    if blocks == [] then Some([])
    else
      var before, last := PatchesOf(blocks[..|blocks| - 1], allowed), PatchOf(blocks[|blocks| - 1], allowed);
      if before.None? || last.None? then None else Some(before.value + [last.value])
  }

  lemma {:induction false} RefusalSticks(blocks: seq<Block>, allowed: seq<Path>, n: nat)
    requires n <= |blocks| && PatchesOf(blocks[..n], allowed).None?
    ensures PatchesOf(blocks, allowed).None?
  {
    if n < |blocks| {
      assert blocks[..|blocks| - 1][..n] == blocks[..n];
      RefusalSticks(blocks[..|blocks| - 1], allowed, n);
    } else {
      assert blocks[..n] == blocks;
    }
  }

  method GeneratePatches(blocks: seq<Block>, workspaceFiles: seq<Path>) returns (success: bool, patches: seq<Patch>)
    ensures var all := PatchesOf(blocks, workspaceFiles);
      success == (all.Some? && all.value != []) && patches == (if all.Some? then all.value else [])
  {
    patches := [];
    for i := 0 to |blocks|
      invariant PatchesOf(blocks[..i], workspaceFiles) == Some(patches)
    {
      assert blocks[..i + 1][..i] == blocks[..i];
      var patch := PatchOf(blocks[i], workspaceFiles);
      if patch.None? {
        RefusalSticks(blocks, workspaceFiles, i + 1);
        return false, [];
      }
      patches := patches + [patch.value];
    }
    assert blocks[..|blocks|] == blocks;
    success := patches != [];
  }

  ghost predicate Confined(patches: seq<Patch>, allowed: seq<Path>) {
    forall i :: 0 <= i < |patches| ==>
      patches[i].fileName in allowed && Trim(patches[i].newContent) == patches[i].newContent
  }

  lemma {:induction false} MatchIsAllowed(allowed: seq<Path>, name: Path)
    ensures MatchFile(allowed, name).Some? ==> MatchFile(allowed, name).value in allowed
  {
    if allowed != [] {
      MatchIsAllowed(allowed[1..], name);
    }
  }

  /** Whatever the model answered, its patches stay inside the allowed files. */
  lemma {:induction false} PatchesAreConfined(blocks: seq<Block>, allowed: seq<Path>)
    ensures PatchesOf(blocks, allowed).Some? ==> Confined(PatchesOf(blocks, allowed).value, allowed)
  {
    if blocks != [] {
      var last := blocks[|blocks| - 1];
      PatchesAreConfined(blocks[..|blocks| - 1], allowed);
      TrimTwice(last.content);
      if last.fileName.Some? {
        MatchIsAllowed(allowed, last.fileName.value);
      }
      hide Trim, MatchFile;
    }
  }

  ghost predicate Placeable(block: Block, allowed: seq<Path>) {
    block.fileName.Some? && block.fileName.value.name != "" && MatchFile(allowed, block.fileName.value).Some?
  }

  /** There is one patch per block, to the file its name is matched to and with its trimmed content, or none at all. */
  lemma {:induction false} PatchesFollowBlocks(blocks: seq<Block>, allowed: seq<Path>)
    ensures PatchesOf(blocks, allowed).Some? <==> forall i :: 0 <= i < |blocks| ==> Placeable(blocks[i], allowed)
    ensures var all := PatchesOf(blocks, allowed);
      all.Some? ==> |all.value| == |blocks| && forall i :: 0 <= i < |blocks| ==>
        all.value[i] == Patch(MatchFile(allowed, blocks[i].fileName.value).value, Trim(blocks[i].content))
  {
    hide MatchFile, Trim;
    if blocks != [] {
      PatchesFollowBlocks(blocks[..|blocks| - 1], allowed);
    }
  }

  // ---------------------------------------------------------------- applying patches

  /** An exception while the patch at this position is applied, and what it left in the file, if anything. */
  datatype Crash = Crash(position: nat, leftover: Option<string>)

  datatype Update = Update(files: Files, modifiedFiles: seq<Path>, filesSkipped: seq<Path>, success: bool)

  function CurrentContent(files: Files, path: Path): string {
    if path in files then Trim(files[path]) else ""
  }

  /** The first n patches applied: a patch equal to the trimmed current content is skipped. */
  function Applied(files: Files, patches: seq<Patch>, n: nat): Update
    requires n <= |patches|
  {
    if n == 0 then Update(files, [], [], true)
    else
      var u, p := Applied(files, patches, n - 1), patches[n - 1];
      if CurrentContent(u.files, p.fileName) == p.newContent then u.(filesSkipped := u.filesSkipped + [p.fileName])
      else u.(files := u.files[p.fileName := p.newContent], modifiedFiles := u.modifiedFiles + [p.fileName])
  }

  function Crashed(u: Update, path: Path, crash: Crash): Update {
    u.(success := false, files := if crash.leftover.Some? then u.files[path := crash.leftover.value] else u.files)
  }

  function Updated(files: Files, patches: seq<Patch>, crash: Option<Crash>): Update {
    if crash.Some? && crash.value.position < |patches| then
      Crashed(Applied(files, patches, crash.value.position), patches[crash.value.position].fileName, crash.value)
    else Applied(files, patches, |patches|)
  }

  /** Two trees agree outside some paths. */
  ghost predicate SameOutside(a: Files, b: Files, paths: set<Path>) {
    forall p :: p !in paths ==> (p in a <==> p in b) && (p in a ==> a[p] == b[p])
  }

  lemma {:induction false} AppliedStaysInside(files: Files, patches: seq<Patch>, n: nat, target: Path)
    requires n <= |patches| && Confined(patches, [target])
    ensures var u := Applied(files, patches, n);
      && SameOutside(files, u.files, {target})
      && Elems(u.modifiedFiles) + Elems(u.filesSkipped) <= {target}
      && (n > 0 ==> CurrentContent(u.files, target) == patches[n - 1].newContent)
  {
    if n > 0 {
      AppliedStaysInside(files, patches, n - 1, target);
      assert patches[n - 1].fileName in [target];
      hide Trim;
    }
  }

  // ---------------------------------------------------------------- what an update reports

  /** The trimmed content of a path after n patches, by the patches and the tree alone. */
  ghost function Met(files: Files, patches: seq<Patch>, n: nat, path: Path): string
    requires n <= |patches|
  {
    if n == 0 then (if path in files then Trim(files[path]) else "")
    else if patches[n - 1].fileName == path then Trim(patches[n - 1].newContent)
    else Met(files, patches, n - 1, path)
  }

  lemma {:induction false} MetIsCurrent(files: Files, patches: seq<Patch>, n: nat, path: Path)
    requires n <= |patches|
    ensures CurrentContent(Applied(files, patches, n).files, path) == Met(files, patches, n, path)
  {
    if n > 0 {
      MetIsCurrent(files, patches, n - 1, path);
      var before, patch := Applied(files, patches, n - 1).files, patches[n - 1];
      TrimTwice(if patch.fileName in before then before[patch.fileName] else "");
      hide Trim;
    }
  }

  /** Patch k goes to the path and differs from the content it meets there. */
  ghost predicate Differs(files: Files, patches: seq<Patch>, k: nat, path: Path)
    requires k < |patches|
  {
    patches[k].fileName == path && patches[k].newContent != Met(files, patches, k, path)
  }

  /** Patch k goes to the path and says what is there already. */
  ghost predicate Repeats(files: Files, patches: seq<Patch>, k: nat, path: Path)
    requires k < |patches|
  {
    patches[k].fileName == path && patches[k].newContent == Met(files, patches, k, path)
  }

  ghost predicate SomeDiffers(files: Files, patches: seq<Patch>, n: nat, path: Path)
    requires n <= |patches|
  {
    exists k :: 0 <= k < n && Differs(files, patches, k, path)
  }

  ghost predicate SomeRepeats(files: Files, patches: seq<Patch>, n: nat, path: Path)
    requires n <= |patches|
  {
    exists k :: 0 <= k < n && Repeats(files, patches, k, path)
  }

  /**
    A path is reported modified exactly if some patch to it differed from what it met, and skipped
    exactly if some patch repeated it; each patch is reported once.
  */
  lemma {:induction false} UpdateReports(files: Files, patches: seq<Patch>, n: nat, path: Path)
    requires n <= |patches|
    ensures var u := Applied(files, patches, n);
      && (path in u.modifiedFiles <==> SomeDiffers(files, patches, n, path))
      && (path in u.filesSkipped <==> SomeRepeats(files, patches, n, path))
      && |u.modifiedFiles| + |u.filesSkipped| == n
  {
    if n > 0 {
      UpdateReports(files, patches, n - 1, path);
      MetIsCurrent(files, patches, n - 1, patches[n - 1].fileName);
      OneMorePatch(files, patches, n - 1, path);
      hide Trim, SomeDiffers, SomeRepeats, CurrentContent, Met;
    }
  }

  ghost predicate Trimmed(patches: seq<Patch>, n: nat)
    requires n <= |patches|
  {
    forall k :: 0 <= k < n ==> Trim(patches[k].newContent) == patches[k].newContent
  }

  /** A path that is not reported modified has not changed; one that is holds its last patch, to the letter. */
  lemma {:induction false} UpdateWrites(files: Files, patches: seq<Patch>, n: nat, path: Path)
    requires n <= |patches|
    ensures var u := Applied(files, patches, n);
      if path !in u.modifiedFiles then
        (path in u.files <==> path in files) && (path in files ==> u.files[path] == files[path])
      else
        path in u.files && (Trimmed(patches, n) ==> u.files[path] == Met(files, patches, n, path))
  {
    if n > 0 {
      UpdateWrites(files, patches, n - 1, path);
      MetIsCurrent(files, patches, n - 1, path);
      TrimTwice(if path in files then files[path] else "");
      hide Trim;
    }
  }

  lemma OneMorePatch(files: Files, patches: seq<Patch>, n: nat, path: Path)
    requires n < |patches|
    ensures SomeDiffers(files, patches, n + 1, path) <==>
      SomeDiffers(files, patches, n, path) || Differs(files, patches, n, path)
    ensures SomeRepeats(files, patches, n + 1, path) <==>
      SomeRepeats(files, patches, n, path) || Repeats(files, patches, n, path)
  {
    hide Differs, Repeats;
  }

  /** How many patches an update gets to. */
  function Reached(patches: seq<Patch>, crash: Option<Crash>): nat {
    if crash.Some? && crash.value.position < |patches| then crash.value.position else |patches|
  }

  /** An exception keeps what the patches before it did and reported, and may leave something in its own file. */
  lemma CrashKeepsReports(files: Files, patches: seq<Patch>, crash: Option<Crash>)
    ensures var n, u := Reached(patches, crash), Updated(files, patches, crash);
      var done := Applied(files, patches, n);
      && u.modifiedFiles == done.modifiedFiles && u.filesSkipped == done.filesSkipped
      && (u.success <==> n == |patches|)
      && u.files == if n < |patches| && crash.value.leftover.Some?
                    then done.files[patches[n].fileName := crash.value.leftover.value] else done.files
  {
    AppliedSucceeds(files, patches, Reached(patches, crash));
  }

  // ---------------------------------------------------------------- one sub-task

  /** How one attempt goes; the provider, the parser's verdict and the verification are inputs. */
  datatype Attempt =
    | ProviderCrashed
    | ProviderFailed
    | InvalidResponse
    | Answered(blocks: seq<Block>, crash: Option<Crash>, verified: bool)

  /** Outcomes by sub-task index and attempt number. */
  datatype World = World(context: nat -> bool, attempt: (nat, nat) -> Attempt, commit: nat -> bool)

  datatype Verdict = Passed | Retry | Abort

  datatype Tried = Tried(files: Files, modified: set<Path>, skipped: set<Path>, verdict: Verdict)

  function TryOnce(files: Files, target: Path, a: Attempt): Tried {
    match a
    case ProviderCrashed => Tried(files, {}, {}, Abort)
    case ProviderFailed => Tried(files, {}, {}, Retry)
    case InvalidResponse => Tried(files, {}, {}, Retry)
    case Answered(blocks, crash, verified) =>
      var patches := PatchesOf(blocks, [target]);
      if patches.None? || patches.value == [] then Tried(files, {}, {}, Retry)
      else
        var u := Updated(files, patches.value, crash);
        Tried(u.files, Elems(u.modifiedFiles), Elems(u.filesSkipped), if u.success && verified then Passed else Retry)
  }

  /** `total` is totalRetryCount and `history` the length of retryHistory; both run on over all sub-tasks. */
  datatype SubRun = SubRun(files: Files, modified: set<Path>, skipped: set<Path>, ok: bool, retries: nat, total: nat,
                           history: nat)

  /** A turn counted as the r-th retry, with what its attempt did. */
  function Turn(s: SubRun, r: nat, t: Tried): SubRun {
    SubRun(t.files, s.modified + t.modified, s.skipped + t.skipped, t.verdict.Passed?, r,
           if r > 0 then s.total + 1 else s.total, s.history)
  }

  predicate Again(t: Tried, r: nat, maxRetryCount: int) {
    t.verdict.Retry? && r < maxRetryCount
  }

  /**
    The retry loop of sub-task i, from its r-th retry on.  A turn counts itself as a retry at its
    head; the history grows where a turn decides on another one.
  */
  function RetryLoop(w: World, i: nat, target: Path, maxRetryCount: int, r: nat, s: SubRun): SubRun
    decreases maxRetryCount - r
  {
    if r > maxRetryCount then s.(ok := false, retries := r)
    else
      var t := TryOnce(s.files, target, w.attempt(i, r));
      if Again(t, r, maxRetryCount) then
        RetryLoop(w, i, target, maxRetryCount, r + 1, Turn(s, r, t).(history := s.history + 1))
      else Turn(s, r, t)
  }

  lemma RetryTurn(w: World, i: nat, target: Path, maxRetryCount: int, r: nat, s: SubRun)
    ensures RetryLoop(w, i, target, maxRetryCount, r, s) ==
      if r > maxRetryCount then s.(ok := false, retries := r)
      else
        var t := TryOnce(s.files, target, w.attempt(i, r));
        if Again(t, r, maxRetryCount) then
          RetryLoop(w, i, target, maxRetryCount, r + 1, Turn(s, r, t).(history := s.history + 1))
        else Turn(s, r, t)
  {
    hide TryOnce;
  }

  lemma TryStaysInside(files: Files, target: Path, a: Attempt)
    ensures var t := TryOnce(files, target, a);
      SameOutside(files, t.files, {target}) && t.modified + t.skipped <= {target}
  {
    if a.Answered? {
      PatchesAreConfined(a.blocks, [target]);
      var patches := PatchesOf(a.blocks, [target]);
      if patches.Some? && patches.value != [] {
        var all := |patches.value|;
        var n := if a.crash.Some? && a.crash.value.position < all then a.crash.value.position else all;
        AppliedStaysInside(files, patches.value, n, target);
        assert n < |patches.value| ==> patches.value[n].fileName in [target];
        hide Trim, PatchesOf, Applied;
      }
    }
  }

  ghost predicate Fits(r: nat, maxRetryCount: int) {
    r <= if maxRetryCount < 0 then 0 else maxRetryCount
  }

  lemma {:induction false} RetryLoopFacts(w: World, i: nat, target: Path, maxRetryCount: int, r: nat, s: SubRun)
    requires Fits(r, maxRetryCount)
    ensures var s' := RetryLoop(w, i, target, maxRetryCount, r, s);
      && SameOutside(s.files, s'.files, {target})
      && s'.modified + s'.skipped <= s.modified + s.skipped + {target}
      && r <= s'.retries && Fits(s'.retries, maxRetryCount)
    decreases maxRetryCount - r
  {
    if r <= maxRetryCount {
      var t := TryOnce(s.files, target, w.attempt(i, r));
      TryStaysInside(s.files, target, w.attempt(i, r));
      if Again(t, r, maxRetryCount) {
        RetryLoopFacts(w, i, target, maxRetryCount, r + 1, Turn(s, r, t).(history := s.history + 1));
      }
      hide TryOnce;
    }
  }

  /** Both counters grow by the sub-task's retries: turns counted at their head, entries pushed at their end. */
  lemma {:induction false} RetryLoopCounts(w: World, i: nat, target: Path, maxRetryCount: int, r: nat, s: SubRun)
    requires Fits(r, maxRetryCount)
    ensures var s' := RetryLoop(w, i, target, maxRetryCount, r, s);
      && r <= s'.retries
      && s'.history == s.history + (s'.retries - r)
      && s'.total == s.total + (s'.retries - r) + if r > 0 then 1 else 0
    decreases maxRetryCount - r
  {
    if r <= maxRetryCount {
      var t := TryOnce(s.files, target, w.attempt(i, r));
      hide TryOnce;
      if Again(t, r, maxRetryCount) {
        RetryLoopCounts(w, i, target, maxRetryCount, r + 1, Turn(s, r, t).(history := s.history + 1));
      }
    }
  }

  // ---------------------------------------------------------------- which attempt decides

  /** How an attempt ends, read off the attempt alone: nothing in the tree can turn it. */
  function VerdictOf(target: Path, a: Attempt): Verdict {
    match a
    case ProviderCrashed => Abort
    case ProviderFailed => Retry
    case InvalidResponse => Retry
    case Answered(blocks, crash, verified) =>
      var patches := PatchesOf(blocks, [target]);
      if patches.None? || patches.value == [] || !verified then Retry
      else if crash.Some? && crash.value.position < |patches.value| then Retry
      else Passed
  }

  lemma {:induction false} AppliedSucceeds(files: Files, patches: seq<Patch>, n: nat)
    requires n <= |patches|
    ensures Applied(files, patches, n).success
  {
    if n > 0 {
      AppliedSucceeds(files, patches, n - 1);
    }
  }

  lemma VerdictIgnoresTree(files: Files, target: Path, a: Attempt)
    ensures TryOnce(files, target, a).verdict == VerdictOf(target, a)
  {
    if a.Answered? {
      var patches := PatchesOf(a.blocks, [target]);
      if patches.Some? {
        AppliedSucceeds(files, patches.value, |patches.value|);
      }
      hide PatchesOf, Applied;
    }
  }

  ghost predicate Passes(w: World, i: nat, target: Path, k: nat) {
    VerdictOf(target, w.attempt(i, k)).Passed?
  }

  ghost predicate Aborts(w: World, i: nat, target: Path, k: nat) {
    VerdictOf(target, w.attempt(i, k)).Abort?
  }

  /** Some attempt within the budget passes, and the provider has not crashed before it. */
  ghost predicate Succeeds(w: World, i: nat, target: Path, maxRetryCount: int, r: nat) {
    exists k ::
      r <= k <= maxRetryCount && Passes(w, i, target, k) && forall j :: r <= j < k ==> !Aborts(w, i, target, j)
  }

  /**
    A sub-task ends in SUCCESS exactly when an attempt within the budget passes with no provider
    crash before it; its retry count is the index of the attempt that decided, and every earlier
    attempt failed in a way that allows another.
  */
  lemma {:induction false} FirstPassDecides(w: World, i: nat, target: Path, maxRetryCount: int, r: nat, s: SubRun)
    requires Fits(r, maxRetryCount)
    ensures var s' := RetryLoop(w, i, target, maxRetryCount, r, s);
      && (s'.ok <==> Succeeds(w, i, target, maxRetryCount, r))
      && (forall k :: r <= k < s'.retries ==> !Passes(w, i, target, k) && !Aborts(w, i, target, k))
      && (s'.ok ==> Passes(w, i, target, s'.retries))
      && (!s'.ok ==> Aborts(w, i, target, s'.retries) || s'.retries >= maxRetryCount)
    decreases maxRetryCount - r
  {
    RetryTurn(w, i, target, maxRetryCount, r, s);
    if r <= maxRetryCount {
      var t := TryOnce(s.files, target, w.attempt(i, r));
      VerdictIgnoresTree(s.files, target, w.attempt(i, r));
      hide RetryLoop, TryOnce, VerdictOf, Succeeds, Turn;
      if Again(t, r, maxRetryCount) {
        FirstPassDecides(w, i, target, maxRetryCount, r + 1, Turn(s, r, t).(history := s.history + 1));
        SucceedsLater(w, i, target, maxRetryCount, r);
      } else {
        SucceedsNow(w, i, target, maxRetryCount, r);
      }
    } else {
      assert !Succeeds(w, i, target, maxRetryCount, r);
    }
  }

  lemma SucceedsNow(w: World, i: nat, target: Path, maxRetryCount: int, r: nat)
    requires r <= maxRetryCount && (Passes(w, i, target, r) || Aborts(w, i, target, r) || r == maxRetryCount)
    ensures Succeeds(w, i, target, maxRetryCount, r) <==> Passes(w, i, target, r)
  {
    if k :| r <= k <= maxRetryCount && Passes(w, i, target, k) && forall j :: r <= j < k ==> !Aborts(w, i, target, j) {
      assert k > r ==> !Aborts(w, i, target, r);
    }
  }

  lemma SucceedsLater(w: World, i: nat, target: Path, maxRetryCount: int, r: nat)
    requires !Passes(w, i, target, r) && !Aborts(w, i, target, r)
    ensures Succeeds(w, i, target, maxRetryCount, r) <==> Succeeds(w, i, target, maxRetryCount, r + 1)
  {
    hide Passes, Aborts;
    if k :| r <= k <= maxRetryCount && Passes(w, i, target, k) && forall j :: r <= j < k ==> !Aborts(w, i, target, j) {
      assert r + 1 <= k;
    }
    if k :| r < k <= maxRetryCount && Passes(w, i, target, k) && forall j :: r < j < k ==> !Aborts(w, i, target, j) {
      assert forall j :: r <= j < k ==> !Aborts(w, i, target, j);
    }
  }

  // ---------------------------------------------------------------- what a sub-task reports

  ghost function PatchesIn(target: Path, a: Attempt): seq<Patch> {
    if a.Answered? && PatchesOf(a.blocks, [target]).Some? then PatchesOf(a.blocks, [target]).value else []
  }

  ghost function ReachedIn(target: Path, a: Attempt): nat
    ensures ReachedIn(target, a) <= |PatchesIn(target, a)|
  {
    if a.Answered? then Reached(PatchesIn(target, a), a.crash) else 0
  }

  /** The attempt, met with this tree, got to a patch that differs from the target's content. */
  ghost predicate Writes(files: Files, target: Path, a: Attempt) {
    SomeDiffers(files, PatchesIn(target, a), ReachedIn(target, a), target)
  }

  ghost predicate RepeatsSome(files: Files, target: Path, a: Attempt) {
    SomeRepeats(files, PatchesIn(target, a), ReachedIn(target, a), target)
  }

  /** One attempt reports its target modified exactly if it writes to it, and skipped exactly if it repeats it. */
  lemma TryReports(files: Files, target: Path, a: Attempt)
    ensures var t := TryOnce(files, target, a);
      && t.modified == (if Writes(files, target, a) then {target} else {})
      && t.skipped == (if RepeatsSome(files, target, a) then {target} else {})
      && (!Writes(files, target, a) && !(a.Answered? && a.crash.Some?) ==> t.files == files)
  {
    TryStaysInside(files, target, a);
    if a.Answered? && PatchesIn(target, a) != [] {
      var n := ReachedIn(target, a);
      CrashKeepsReports(files, PatchesIn(target, a), a.crash);
      UpdateReports(files, PatchesIn(target, a), n, target);
      UpdateWrites(files, PatchesIn(target, a), n, target);
      hide Applied, Updated, SomeDiffers, SomeRepeats, PatchesOf;
      if !Writes(files, target, a) && a.crash.None? {
        SameEverywhere(files, TryOnce(files, target, a).files, target);
      }
    }
    hide PatchesOf, Reached, Updated;
  }

  lemma SameEverywhere(a: Files, b: Files, target: Path)
    requires SameOutside(a, b, {target}) && (target in a <==> target in b) && (target in a ==> a[target] == b[target])
    ensures a == b
  {
    assert a.Keys == b.Keys;
  }

  /** The tree sub-task i's k-th attempt starts from. */
  ghost function TreeBefore(w: World, i: nat, target: Path, files: Files, k: nat): Files {
    if k == 0 then files
    else TryOnce(TreeBefore(w, i, target, files, k - 1), target, w.attempt(i, k - 1)).files
  }

  ghost predicate WroteFrom(w: World, i: nat, target: Path, files: Files, lo: nat, hi: int) {
    exists k :: lo <= k <= hi && Writes(TreeBefore(w, i, target, files, k), target, w.attempt(i, k))
  }

  ghost predicate RepeatedFrom(w: World, i: nat, target: Path, files: Files, lo: nat, hi: int) {
    exists k :: lo <= k <= hi && RepeatsSome(TreeBefore(w, i, target, files, k), target, w.attempt(i, k))
  }

  /** The index of the last attempt; there is none when the budget is negative. */
  function LastAttempt(retries: nat, maxRetryCount: int): int {
    if maxRetryCount < 0 then -1 else retries
  }

  /** A sub-task reports its target modified, or skipped, exactly if one of its attempts did so. */
  lemma {:induction false} LoopReports(w: World, i: nat, target: Path, maxRetryCount: int, r: nat, s: SubRun,
                                       files: Files)
    requires Fits(r, maxRetryCount) && s.files == TreeBefore(w, i, target, files, r)
    ensures var s' := RetryLoop(w, i, target, maxRetryCount, r, s);
      var last := LastAttempt(s'.retries, maxRetryCount);
      && s'.modified == s.modified + (if WroteFrom(w, i, target, files, r, last) then {target} else {})
      && s'.skipped == s.skipped + (if RepeatedFrom(w, i, target, files, r, last) then {target} else {})
    decreases maxRetryCount - r
  {
    hide RetryLoop, TryOnce, Writes, RepeatsSome, WroteFrom, RepeatedFrom;
    RetryTurn(w, i, target, maxRetryCount, r, s);
    RetryLoopCounts(w, i, target, maxRetryCount, r, s);
    var last := LastAttempt(RetryLoop(w, i, target, maxRetryCount, r, s).retries, maxRetryCount);
    if r <= maxRetryCount {
      var t := TryOnce(s.files, target, w.attempt(i, r));
      assert t.files == TreeBefore(w, i, target, files, r + 1);
      TryReports(s.files, target, w.attempt(i, r));
      FirstAttemptOf(w, i, target, files, r, last);
      hide TreeBefore;
      if Again(t, r, maxRetryCount) {
        LoopReports(w, i, target, maxRetryCount, r + 1, Turn(s, r, t).(history := s.history + 1), files);
      } else {
        NoAttempts(w, i, target, files, r + 1, last);
      }
    } else {
      NoAttempts(w, i, target, files, r, last);
    }
  }

  lemma FirstAttemptOf(w: World, i: nat, target: Path, files: Files, lo: nat, hi: int)
    requires lo <= hi
    ensures WroteFrom(w, i, target, files, lo, hi) <==>
      || Writes(TreeBefore(w, i, target, files, lo), target, w.attempt(i, lo))
      || WroteFrom(w, i, target, files, lo + 1, hi)
    ensures RepeatedFrom(w, i, target, files, lo, hi) <==>
      || RepeatsSome(TreeBefore(w, i, target, files, lo), target, w.attempt(i, lo))
      || RepeatedFrom(w, i, target, files, lo + 1, hi)
  {
    hide Writes, RepeatsSome, TreeBefore;
  }

  lemma NoAttempts(w: World, i: nat, target: Path, files: Files, lo: nat, hi: int)
    requires hi < lo
    ensures !WroteFrom(w, i, target, files, lo, hi) && !RepeatedFrom(w, i, target, files, lo, hi)
  {
  }

  // ---------------------------------------------------------------- the whole plan

  datatype SubTaskResult = SubTaskResult(ok: bool, retryCount: nat)

  datatype Ending = Going | Halted | ContextError

  /** `kept` is the tree as the last successful sub-task left it; `total` and `history` are as in SubRun. */
  datatype PlanRun = PlanRun(files: Files, head: Files, kept: Files, results: seq<SubTaskResult>,
                             total: nat, history: nat, modified: set<Path>, skipped: set<Path>, ending: Ending)

  function StartRun(files: Files): PlanRun {
    PlanRun(files, files, files, [], 0, 0, {}, {}, Going)
  }

  /** What a sub-task's retry loop starts from. */
  function Entering(p: PlanRun): SubRun {
    SubRun(p.files, p.modified, p.skipped, false, 0, p.total, p.history)
  }

  /** Sub-task i: context, retry loop, then commit on success or rollback on failure. */
  function SubTaskStep(w: World, i: nat, target: Path, maxRetryCount: int, p: PlanRun): PlanRun {
    if !w.context(i) then p.(ending := ContextError)
    else
      var s := RetryLoop(w, i, target, maxRetryCount, 0, Entering(p));
      var q := p.(results := p.results + [SubTaskResult(s.ok, s.retries)], total := s.total, history := s.history,
                  modified := s.modified, skipped := s.skipped);
      if s.ok then q.(files := s.files, kept := s.files, head := if w.commit(i) then s.files else p.head)
      else q.(files := p.head, ending := Halted)
  }

  /** The plan after its first n sub-tasks had their turn. */
  function RunPlan(w: World, targets: seq<Path>, maxRetryCount: int, files: Files, n: nat): PlanRun
    requires n <= |targets|
  {
    if n == 0 then StartRun(files)
    else
      var p := RunPlan(w, targets, maxRetryCount, files, n - 1);
      if p.ending.Going? then SubTaskStep(w, n - 1, targets[n - 1], maxRetryCount, p) else p
  }

  /** The targets of the sub-tasks that ended in SUCCESS. */
  ghost function SucceededTargets(targets: seq<Path>, results: seq<SubTaskResult>): set<Path>
    requires |results| <= |targets|
  {
    set j | 0 <= j < |results| && results[j].ok :: targets[j]
  }

  function RetrySum(results: seq<SubTaskResult>): nat {
    if results == [] then 0 else RetrySum(results[..|results| - 1]) + results[|results| - 1].retryCount
  }

  ghost predicate Shape(n: nat, maxRetryCount: int, p: PlanRun) {
    && |p.results| <= n
    && (p.ending.Going? ==> |p.results| == n)
    && (p.ending.ContextError? ==> |p.results| < n)
    && (forall j :: 0 <= j < |p.results| ==> Fits(p.results[j].retryCount, maxRetryCount))
    && (forall j :: 0 <= j < |p.results| ==> p.results[j].ok || (p.ending.Halted? && j == |p.results| - 1))
    && (p.ending.Halted? ==> p.results != [] && !p.results[|p.results| - 1].ok)
    && p.total == p.history == RetrySum(p.results)
  }

  /**
    Results come as SUCCESS* and then at most one FAILED, which ends the plan; totalRetryCount, counted
    turn by turn, and the length of retryHistory are both the sum of the retry counts, each within the budget.
  */
  lemma {:induction false} ResultsHaveShape(w: World, targets: seq<Path>, maxRetryCount: int, files: Files, n: nat)
    requires n <= |targets|
    ensures Shape(n, maxRetryCount, RunPlan(w, targets, maxRetryCount, files, n))
  {
    if n > 0 {
      RunPlanStep(w, targets, maxRetryCount, files, n - 1);
      hide SubTaskStep, Shape, Fits, RunPlan;
      ResultsHaveShape(w, targets, maxRetryCount, files, n - 1);
      var p := RunPlan(w, targets, maxRetryCount, files, n - 1);
      if p.ending.Going? {
        ShapeStep(w, n - 1, targets[n - 1], maxRetryCount, p);
      } else {
        ShapeStays(n - 1, maxRetryCount, p);
      }
    }
  }

  lemma ShapeStays(n: nat, maxRetryCount: int, p: PlanRun)
    requires Shape(n, maxRetryCount, p) && !p.ending.Going?
    ensures Shape(n + 1, maxRetryCount, p)
  {
  }

  lemma ShapeStep(w: World, n: nat, target: Path, maxRetryCount: int, p: PlanRun)
    requires Shape(n, maxRetryCount, p) && p.ending.Going?
    ensures Shape(n + 1, maxRetryCount, SubTaskStep(w, n, target, maxRetryCount, p))
  {
    StepResult(w, n, target, maxRetryCount, p);
    hide SubTaskStep, Fits, SameOutside;
    var q := SubTaskStep(w, n, target, maxRetryCount, p);
    if w.context(n) {
      PushShape(n, maxRetryCount, p, q, q.results[n]);
    }
  }

  /** A sub-task that gets its context adds one result and either lets the plan go on or halts it. */
  lemma StepResult(w: World, i: nat, target: Path, maxRetryCount: int, p: PlanRun)
    ensures var q := SubTaskStep(w, i, target, maxRetryCount, p);
      if !w.context(i) then q == p.(ending := ContextError)
      else
        && |q.results| == |p.results| + 1 && q.results == p.results + [q.results[|p.results|]]
        && var r := q.results[|p.results|];
           && Fits(r.retryCount, maxRetryCount)
           && q.total == p.total + r.retryCount && q.history == p.history + r.retryCount
           && q.modified + q.skipped <= p.modified + p.skipped + {target}
           && (if r.ok then
                 && q.ending == p.ending && q.files == q.kept && SameOutside(p.files, q.files, {target})
                 && q.head == (if w.commit(i) then q.files else p.head)
               else q.ending == Halted && q.files == q.head == p.head && q.kept == p.kept)
  {
    RetryLoopFacts(w, i, target, maxRetryCount, 0, Entering(p));
    RetryLoopCounts(w, i, target, maxRetryCount, 0, Entering(p));
    hide RetryLoop, SameOutside, Fits;
  }

  lemma PushShape(n: nat, maxRetryCount: int, p: PlanRun, q: PlanRun, r: SubTaskResult)
    requires Shape(n, maxRetryCount, p) && p.ending.Going?
    requires q.results == p.results + [r] && Fits(r.retryCount, maxRetryCount)
    requires q.total == p.total + r.retryCount && q.history == p.history + r.retryCount
    requires q.ending == if r.ok then Going else Halted
    ensures Shape(n + 1, maxRetryCount, q)
  {
    assert q.results[..|p.results|] == p.results;
    hide Fits;
  }

  ghost predicate Transactional(w: World, targets: seq<Path>, files: Files, p: PlanRun)
    requires |p.results| <= |targets|
  {
    var touched := SucceededTargets(targets, p.results);
    && SameOutside(files, p.files, touched) && SameOutside(files, p.head, touched) &&
      SameOutside(files, p.kept, touched)
    && (p.ending.Halted? ==> p.files == p.head)
    && (!p.ending.Halted? ==> p.files == p.kept)
  }

  /**
    Sub-tasks are all-or-nothing in what they touch: at every sub-task boundary the tree differs from
    the initial one only at target files of SUCCESS sub-tasks, whatever failed attempts wrote.
  */
  lemma {:induction false} SubTasksAreConfined(w: World, targets: seq<Path>, maxRetryCount: int, files: Files, n: nat)
    requires n <= |targets|
    ensures var p := RunPlan(w, targets, maxRetryCount, files, n);
      |p.results| <= |targets| && Transactional(w, targets, files, p)
  {
    hide SubTaskStep, Shape, Transactional;
    if n == 0 {
      StartIsConfined(w, targets, files);
    } else {
      RunPlanStep(w, targets, maxRetryCount, files, n - 1);
      hide RunPlan;
      SubTasksAreConfined(w, targets, maxRetryCount, files, n - 1);
      ResultsHaveShape(w, targets, maxRetryCount, files, n - 1);
      var p := RunPlan(w, targets, maxRetryCount, files, n - 1);
      if p.ending.Going? {
        ShapeCounts(n - 1, maxRetryCount, p);
        StepIsConfined(w, targets, maxRetryCount, files, n - 1, p);
      }
    }
  }

  lemma StartIsConfined(w: World, targets: seq<Path>, files: Files)
    ensures Transactional(w, targets, files, StartRun(files))
  {
  }

  lemma StepIsConfined(w: World, targets: seq<Path>, maxRetryCount: int, files: Files, i: nat, p: PlanRun)
    requires i < |targets| && p.ending.Going? && |p.results| == i && Transactional(w, targets, files, p)
    ensures var q := SubTaskStep(w, i, targets[i], maxRetryCount, p);
      |q.results| <= |targets| && Transactional(w, targets, files, q)
  {
    var q := SubTaskStep(w, i, targets[i], maxRetryCount, p);
    StepResult(w, i, targets[i], maxRetryCount, p);
    if w.context(i) {
      TargetsGrow(targets, p.results, q.results[i]);
      var before, after := SucceededTargets(targets, p.results), SucceededTargets(targets, q.results);
      Widen(files, p.head, before, after);
      Widen(files, p.kept, before, after);
      if q.results[i].ok {
        Compose(files, p.files, q.files, before, {targets[i]});
      }
    }
    hide SubTaskStep, SucceededTargets, SameOutside, Fits;
  }

  lemma Widen(a: Files, b: Files, paths: set<Path>, more: set<Path>)
    requires SameOutside(a, b, paths) && paths <= more
    ensures SameOutside(a, b, more)
  {
  }

  lemma Compose(a: Files, b: Files, c: Files, paths: set<Path>, more: set<Path>)
    requires SameOutside(a, b, paths) && SameOutside(b, c, more)
    ensures SameOutside(a, c, paths + more)
  {
  }

  lemma TargetsGrow(targets: seq<Path>, results: seq<SubTaskResult>, r: SubTaskResult)
    requires |results| < |targets|
    ensures SucceededTargets(targets, results + [r]) ==
            SucceededTargets(targets, results) + if r.ok then {targets[|results|]} else {}
  {
    var after := results + [r];
    assert r.ok ==> after[|results|].ok;
    forall t | t in SucceededTargets(targets, results)
      ensures t in SucceededTargets(targets, after)
    {
      var j :| 0 <= j < |results| && results[j].ok && targets[j] == t;
      assert after[j].ok;
    }
  }

  /** When every commit succeeds, the tree equals the last snapshot at every sub-task boundary. */
  lemma {:induction false} TreeIsSnapshot(w: World, targets: seq<Path>, maxRetryCount: int, files: Files, n: nat)
    requires n <= |targets| && forall i :: 0 <= i < n ==> w.commit(i)
    ensures var p := RunPlan(w, targets, maxRetryCount, files, n); p.files == p.head == p.kept
  {
    if n > 0 {
      TreeIsSnapshot(w, targets, maxRetryCount, files, n - 1);
      hide RetryLoop;
    }
  }

  lemma ShapeCounts(n: nat, maxRetryCount: int, p: PlanRun)
    requires Shape(n, maxRetryCount, p) && p.ending.Going?
    ensures |p.results| == n
  {
  }

  // ---------------------------------------------------------------- what the plan reports

  /** One of the attempts of sub-task j, which has a result, wrote to its target. */
  ghost predicate WroteAt(w: World, targets: seq<Path>, maxRetryCount: int, files: Files, j: nat, r: SubTaskResult)
    requires j < |targets|
  {
    WroteFrom(w, j, targets[j], RunPlan(w, targets, maxRetryCount, files, j).files, 0,
              LastAttempt(r.retryCount, maxRetryCount))
  }

  ghost predicate RepeatedAt(w: World, targets: seq<Path>, maxRetryCount: int, files: Files, j: nat, r: SubTaskResult)
    requires j < |targets|
  {
    RepeatedFrom(w, j, targets[j], RunPlan(w, targets, maxRetryCount, files, j).files, 0,
                 LastAttempt(r.retryCount, maxRetryCount))
  }

  ghost function Wrote(w: World, targets: seq<Path>, maxRetryCount: int, files: Files, results: seq<SubTaskResult>)
    : (paths: set<Path>)
    requires |results| <= |targets|
    ensures forall x :: x in paths <==>
      exists j :: 0 <= j < |results| && targets[j] == x && WroteAt(w, targets, maxRetryCount, files, j, results[j])
  {
    set j | 0 <= j < |results| && WroteAt(w, targets, maxRetryCount, files, j, results[j]) :: targets[j]
  }

  ghost function Repeated(w: World, targets: seq<Path>, maxRetryCount: int, files: Files, results: seq<SubTaskResult>)
    : (paths: set<Path>)
    requires |results| <= |targets|
    ensures forall x :: x in paths <==>
      exists j :: 0 <= j < |results| && targets[j] == x && RepeatedAt(w, targets, maxRetryCount, files, j, results[j])
  {
    set j | 0 <= j < |results| && RepeatedAt(w, targets, maxRetryCount, files, j, results[j]) :: targets[j]
  }

  lemma OneMoreResult(w: World, targets: seq<Path>, maxRetryCount: int, files: Files, results: seq<SubTaskResult>,
                      r: SubTaskResult)
    requires |results| < |targets|
    ensures var n := |results|;
      && Wrote(w, targets, maxRetryCount, files, results + [r]) ==
         Wrote(w, targets, maxRetryCount, files, results) +
           (if WroteAt(w, targets, maxRetryCount, files, n, r) then {targets[n]} else {})
      && Repeated(w, targets, maxRetryCount, files, results + [r]) ==
         Repeated(w, targets, maxRetryCount, files, results) +
           (if RepeatedAt(w, targets, maxRetryCount, files, n, r) then {targets[n]} else {})
  {
    WroteOneMore(w, targets, maxRetryCount, files, results, r);
    RepeatedOneMore(w, targets, maxRetryCount, files, results, r);
  }

  lemma WroteOneMore(w: World, targets: seq<Path>, maxRetryCount: int, files: Files, results: seq<SubTaskResult>,
                     r: SubTaskResult)
    requires |results| < |targets|
    ensures Wrote(w, targets, maxRetryCount, files, results + [r]) ==
      Wrote(w, targets, maxRetryCount, files, results) +
        if WroteAt(w, targets, maxRetryCount, files, |results|, r) then {targets[|results|]} else {}
  {
    hide WroteAt;
    var after := results + [r];
    assert after[|results|] == r && forall j :: 0 <= j < |results| ==> after[j] == results[j];
  }

  lemma RepeatedOneMore(w: World, targets: seq<Path>, maxRetryCount: int, files: Files, results: seq<SubTaskResult>,
                        r: SubTaskResult)
    requires |results| < |targets|
    ensures Repeated(w, targets, maxRetryCount, files, results + [r]) ==
      Repeated(w, targets, maxRetryCount, files, results) +
        if RepeatedAt(w, targets, maxRetryCount, files, |results|, r) then {targets[|results|]} else {}
  {
    hide RepeatedAt;
    var after := results + [r];
    assert after[|results|] == r && forall j :: 0 <= j < |results| ==> after[j] == results[j];
  }

  /**
    At every boundary a path is reported modified exactly if some attempt of some sub-task for it, a
    failed one too, got to a patch that differed from the file it met; and skipped exactly if some
    patch repeated the file.
  */
  lemma {:induction false} PlanReports(w: World, targets: seq<Path>, maxRetryCount: int, files: Files, n: nat)
    requires n <= |targets|
    ensures var p := RunPlan(w, targets, maxRetryCount, files, n);
      && |p.results| <= |targets|
      && p.modified == Wrote(w, targets, maxRetryCount, files, p.results)
      && p.skipped == Repeated(w, targets, maxRetryCount, files, p.results)
  {
    hide SubTaskStep, Shape, WroteAt, RepeatedAt;
    if n > 0 {
      RunPlanStep(w, targets, maxRetryCount, files, n - 1);
      hide RunPlan, Wrote, Repeated;
      PlanReports(w, targets, maxRetryCount, files, n - 1);
      ResultsHaveShape(w, targets, maxRetryCount, files, n - 1);
      var p := RunPlan(w, targets, maxRetryCount, files, n - 1);
      if p.ending.Going? {
        ShapeCounts(n - 1, maxRetryCount, p);
        StepReports(w, targets, maxRetryCount, files, n - 1, p);
      }
    }
  }

  lemma StepReports(w: World, targets: seq<Path>, maxRetryCount: int, files: Files, n: nat, p: PlanRun)
    requires n < |targets| && p == RunPlan(w, targets, maxRetryCount, files, n) && |p.results| == n
    requires p.modified == Wrote(w, targets, maxRetryCount, files, p.results)
    requires p.skipped == Repeated(w, targets, maxRetryCount, files, p.results)
    ensures var q := SubTaskStep(w, n, targets[n], maxRetryCount, p);
      && |q.results| <= |targets|
      && q.modified == Wrote(w, targets, maxRetryCount, files, q.results)
      && q.skipped == Repeated(w, targets, maxRetryCount, files, q.results)
  {
    hide Wrote, Repeated, RunPlan, RetryLoop, WroteFrom, RepeatedFrom;
    if w.context(n) {
      LoopReports(w, n, targets[n], maxRetryCount, 0, Entering(p), p.files);
      var s := RetryLoop(w, n, targets[n], maxRetryCount, 0, Entering(p));
      OneMoreResult(w, targets, maxRetryCount, files, p.results, SubTaskResult(s.ok, s.retries));
    }
  }

  // ---------------------------------------------------------------- failed commits

  /** The boundary after the last sub-task, among the first n, whose commit worked; 0 when there is none. */
  ghost function Checkpoint(w: World, n: nat): nat {
    if n == 0 then 0 else if w.commit(n - 1) then n else Checkpoint(w, n - 1)
  }

  /** How a sub-task that started from p either lets the plan go on or halts it. */
  lemma StepEnds(w: World, i: nat, target: Path, maxRetryCount: int, p: PlanRun)
    requires p.ending.Going?
    ensures var q := SubTaskStep(w, i, target, maxRetryCount, p);
      match q.ending
      case Going => q.files == q.kept && SameOutside(p.files, q.files, {target}) &&
        q.head == if w.commit(i) then q.files else p.head
      case Halted => |q.results| == |p.results| + 1 && q.files == p.head && q.kept == p.kept
      case ContextError => true
  {
    StepResult(w, i, target, maxRetryCount, p);
    hide SubTaskStep, SameOutside, Fits;
  }

  lemma {:induction false} HeadIsCheckpoint(w: World, targets: seq<Path>, maxRetryCount: int, files: Files, n: nat)
    requires n <= |targets| && RunPlan(w, targets, maxRetryCount, files, n).ending.Going?
    ensures var p, c := RunPlan(w, targets, maxRetryCount, files, n), Checkpoint(w, n);
      c <= n && p.head == RunPlan(w, targets, maxRetryCount, files, c).files && p.kept == p.files
  {
    if n > 0 {
      hide SubTaskStep;
      RunPlanStep(w, targets, maxRetryCount, files, n - 1);
      var p := RunPlan(w, targets, maxRetryCount, files, n - 1);
      StepEnds(w, n - 1, targets[n - 1], maxRetryCount, p);
      hide RunPlan, SameOutside;
      HeadIsCheckpoint(w, targets, maxRetryCount, files, n - 1);
    }
  }

  /** p is what became of the run that stood at the boundary `before` when its next sub-task failed. */
  ghost predicate HaltedFrom(before: PlanRun, p: PlanRun) {
    before.ending.Going? && |p.results| == |before.results| + 1 && p.files == before.head && p.kept == before.kept
  }

  /** A halted run went on up to the sub-task that failed and then rolled back to the last snapshot. */
  lemma {:induction false} HaltedAt(w: World, targets: seq<Path>, maxRetryCount: int, files: Files, n: nat)
    returns (h: nat)
    requires n <= |targets| && RunPlan(w, targets, maxRetryCount, files, n).ending.Halted?
    ensures h < n && |RunPlan(w, targets, maxRetryCount, files, n).results| == h + 1
    ensures HaltedFrom(RunPlan(w, targets, maxRetryCount, files, h), RunPlan(w, targets, maxRetryCount, files, n))
  {
    assert n > 0;
    h := n - 1;
    RunPlanStep(w, targets, maxRetryCount, files, h);
    var p := RunPlan(w, targets, maxRetryCount, files, h);
    hide RunPlan, SubTaskStep, Shape, SameOutside;
    if p.ending.Going? {
      StepEnds(w, h, targets[h], maxRetryCount, p);
      ResultsHaveShape(w, targets, maxRetryCount, files, h);
      ShapeCounts(h, maxRetryCount, p);
    } else {
      hide HaltedFrom;
      h := HaltedAt(w, targets, maxRetryCount, files, n - 1);
    }
  }

  ghost function TargetsBetween(targets: seq<Path>, lo: nat, hi: nat): set<Path>
    requires hi <= |targets|
  {
    set j | lo <= j < hi :: targets[j]
  }

  lemma {:induction false} ChangedBetween(w: World, targets: seq<Path>, maxRetryCount: int, files: Files, lo: nat,
                                          hi: nat)
    requires lo <= hi <= |targets| && RunPlan(w, targets, maxRetryCount, files, hi).ending.Going?
    ensures SameOutside(RunPlan(w, targets, maxRetryCount, files, lo).files,
                        RunPlan(w, targets, maxRetryCount, files, hi).files, TargetsBetween(targets, lo, hi))
    decreases hi
  {
    if lo < hi {
      hide SubTaskStep, SameOutside;
      RunPlanStep(w, targets, maxRetryCount, files, hi - 1);
      var a, p := RunPlan(w, targets, maxRetryCount, files, lo), RunPlan(w, targets, maxRetryCount, files, hi - 1);
      StepEnds(w, hi - 1, targets[hi - 1], maxRetryCount, p);
      ChangedBetween(w, targets, maxRetryCount, files, lo, hi - 1);
      Compose(a.files, p.files, RunPlan(w, targets, maxRetryCount, files, hi).files,
              TargetsBetween(targets, lo, hi - 1), {targets[hi - 1]});
      assert TargetsBetween(targets, lo, hi) == TargetsBetween(targets, lo, hi - 1) + {targets[hi - 1]};
    } else {
      assert lo == hi;
    }
  }

  ghost predicate SameAt(a: Files, b: Files, p: Path) {
    (p in a <==> p in b) && (p in a ==> a[p] == b[p])
  }

  /**
    The service ignores a failed commit.  A run that halts at sub-task h keeps the work of the
    sub-tasks before it if and only if those since the last good commit left each of their targets as
    that commit has it, so always when the last success was committed; a run that does not halt keeps it.
  */
  lemma HaltKeepsWorkIff(w: World, targets: seq<Path>, maxRetryCount: int, files: Files)
    ensures var p := RunPlan(w, targets, maxRetryCount, files, |targets|);
      if p.ending.Halted? then
        var h := |p.results| - 1;
        && 0 <= h < |targets|
        && var c, done := Checkpoint(w, h), RunPlan(w, targets, maxRetryCount, files, h).files;
           && c <= h && p.kept == done
           && (p.files == done <==>
                 forall j :: c <= j < h ==>
                   SameAt(RunPlan(w, targets, maxRetryCount, files, c).files, done, targets[j]))
           && (h > 0 && w.commit(h - 1) ==> p.files == done)
      else p.files == p.kept
  {
    hide RunPlan, SameOutside, SucceededTargets, SameAt;
    var p := RunPlan(w, targets, maxRetryCount, files, |targets|);
    if p.ending.Halted? {
      var h := HaltedAt(w, targets, maxRetryCount, files, |targets|);
      HeadIsCheckpoint(w, targets, maxRetryCount, files, h);
      var c := Checkpoint(w, h);
      ChangedBetween(w, targets, maxRetryCount, files, c, h);
      SameTree(RunPlan(w, targets, maxRetryCount, files, c).files, RunPlan(w, targets, maxRetryCount, files, h).files,
        targets, c, h);
    } else {
      SubTasksAreConfined(w, targets, maxRetryCount, files, |targets|);
    }
  }

  lemma SameTree(a: Files, b: Files, targets: seq<Path>, lo: nat, hi: nat)
    requires lo <= hi <= |targets| && SameOutside(a, b, TargetsBetween(targets, lo, hi))
    ensures a == b <==> forall j :: lo <= j < hi ==> SameAt(a, b, targets[j])
  {
    if forall j :: lo <= j < hi ==> SameAt(a, b, targets[j]) {
      forall p
        ensures SameAt(a, b, p)
      {
      }
      assert forall p :: SameAt(a, b, p);
      assert a.Keys == b.Keys by {
        assert forall p :: p in a.Keys <==> p in b.Keys;
      }
    }
  }

  /** Whatever the answers, verifications and initial tree, no successful work is lost under these commits. */
  ghost predicate NeverLosesWork(targets: seq<Path>, maxRetryCount: int, commit: nat -> bool) {
    forall context, attempt, files :: KeepsWork(World(context, attempt, commit), targets, maxRetryCount, files)
  }

  ghost predicate KeepsWork(w: World, targets: seq<Path>, maxRetryCount: int, files: Files) {
    var p := RunPlan(w, targets, maxRetryCount, files, |targets|);
    p.files == p.kept
  }

  /** Sub-task i can be reached and pass: attempts are allowed and no target so far is the empty path. */
  predicate CanSucceed(targets: seq<Path>, maxRetryCount: int, i: nat)
    requires i < |targets|
  {
    maxRetryCount >= 0 && forall j :: 0 <= j <= i ==> targets[j].name != ""
  }

  /** Every sub-task that can succeed and has another one after it is committed. */
  predicate CommitsWhatMatters(targets: seq<Path>, maxRetryCount: int, commit: nat -> bool) {
    forall i :: 0 <= i < |targets| - 1 && CanSucceed(targets, maxRetryCount, i) ==> commit(i)
  }

  /** What a caller needs from git: work is safe in every run if and only if these commits work. */
  lemma WorkIsSafeIffCommitted(targets: seq<Path>, maxRetryCount: int, commit: nat -> bool)
    ensures NeverLosesWork(targets, maxRetryCount, commit) <==> CommitsWhatMatters(targets, maxRetryCount, commit)
  {
    hide KeepsWork, CanSucceed;
    if CommitsWhatMatters(targets, maxRetryCount, commit) {
      forall context, attempt, files
        ensures KeepsWork(World(context, attempt, commit), targets, maxRetryCount, files)
      {
        CommittedKeepsWork(World(context, attempt, commit), targets, maxRetryCount, files);
      }
    } else {
      var i :| 0 <= i < |targets| - 1 && CanSucceed(targets, maxRetryCount, i) && !commit(i);
      LosingRun(targets, maxRetryCount, commit, i);
    }
  }

  lemma CommittedKeepsWork(w: World, targets: seq<Path>, maxRetryCount: int, files: Files)
    requires CommitsWhatMatters(targets, maxRetryCount, w.commit)
    ensures KeepsWork(w, targets, maxRetryCount, files)
  {
    var p := RunPlan(w, targets, maxRetryCount, files, |targets|);
    if p.ending.Halted? {
      var h := HaltedAt(w, targets, maxRetryCount, files, |targets|);
      SnapshotUpToDate(w, targets, maxRetryCount, files, h);
    } else {
      SubTasksAreConfined(w, targets, maxRetryCount, files, |targets|);
    }
    hide RunPlan, CommitsWhatMatters;
  }

  lemma {:induction false} SnapshotUpToDate(w: World, targets: seq<Path>, maxRetryCount: int, files: Files, n: nat)
    requires n < |targets| && CommitsWhatMatters(targets, maxRetryCount, w.commit)
    requires RunPlan(w, targets, maxRetryCount, files, n).ending.Going?
    ensures var p := RunPlan(w, targets, maxRetryCount, files, n); p.head == p.kept
    ensures n > 0 ==> CanSucceed(targets, maxRetryCount, n - 1)
  {
    if n > 0 {
      RunPlanStep(w, targets, maxRetryCount, files, n - 1);
      var p := RunPlan(w, targets, maxRetryCount, files, n - 1);
      hide SubTaskStep, RunPlan, SameOutside, CanSucceed;
      SnapshotUpToDate(w, targets, maxRetryCount, files, n - 1);
      PassNeedsName(w, n - 1, targets[n - 1], maxRetryCount, p);
      OneMoreName(targets, maxRetryCount, n - 1);
      assert w.commit(n - 1);
      StepEnds(w, n - 1, targets[n - 1], maxRetryCount, p);
    } else {
      assert RunPlan(w, targets, maxRetryCount, files, n) == StartRun(files);
    }
  }

  lemma OneMoreName(targets: seq<Path>, maxRetryCount: int, i: nat)
    requires i < |targets| && (i > 0 ==> CanSucceed(targets, maxRetryCount, i - 1))
    requires maxRetryCount >= 0 && targets[i].name != ""
    ensures CanSucceed(targets, maxRetryCount, i)
  {
  }

  /** No block can be matched to an empty path, so such a sub-task fails. */
  lemma PassNeedsName(w: World, i: nat, target: Path, maxRetryCount: int, p: PlanRun)
    requires p.ending.Going? && SubTaskStep(w, i, target, maxRetryCount, p).ending.Going?
    ensures maxRetryCount >= 0 && target.name != ""
  {
    FirstPassDecides(w, i, target, maxRetryCount, 0, Entering(p));
    var k :| 0 <= k <= maxRetryCount && Passes(w, i, target, k);
    assert w.attempt(i, k).Answered?;
    if target.name == "" {
      NothingForNoName(w.attempt(i, k).blocks, target);
      assert false;
    }
  }

  lemma {:induction false} NothingForNoName(blocks: seq<Block>, target: Path)
    requires target.name == ""
    ensures PatchesOf(blocks, [target]) == if blocks == [] then Some([]) else None
  {
    if blocks != [] {
      var last := blocks[|blocks| - 1];
      NothingForNoName(blocks[..|blocks| - 1], target);
      if last.fileName.Some? && last.fileName.value.name != "" {
        assert MatchFile([target], last.fileName.value) == MatchFile([], last.fileName.value);
      }
    }
  }

  // The run that loses work: everybody rewrites a file as it is, sub-task i changes its own, the next one fails.

  const OLD_TEXT := "a"

  const NEW_TEXT := "b"

  function Writing(target: Path, text: string): Attempt {
    Answered([Block(Some(target), text)], None, true)
  }

  function LosingWorld(targets: seq<Path>, commit: nat -> bool, i: nat): World {
    World(j => true,
          (j: nat, r: nat) =>
            if j < i && j < |targets| then Writing(targets[j], OLD_TEXT)
            else if j == i && j < |targets| then Writing(targets[j], NEW_TEXT)
            else ProviderCrashed,
          commit)
  }

  lemma WritingPasses(files: Files, target: Path, text: string)
    requires target.name != "" && (text == OLD_TEXT || text == NEW_TEXT)
    ensures var t := TryOnce(files, target, Writing(target, text));
      t.verdict.Passed? && t.files == if CurrentContent(files, target) == text then files else files[target := text]
  {
    var blocks, patch := [Block(Some(target), text)], Patch(target, text);
    assert MatchFile([target], target) == Some(target) && Trim(text) == text;
    assert blocks[..|blocks| - 1] == [];
    assert PatchesOf([], [target]) == Some([]) && [] + [patch] == [patch];
    assert PatchOf(blocks[|blocks| - 1], [target]) == Some(patch);
    assert PatchesOf(blocks, [target]) == Some([patch]);
    assert Applied(files, [patch], 0) == Update(files, [], [], true);
    hide Trim, MatchFile, PatchesOf;
    assert Applied(files, [patch], 1).files ==
           if CurrentContent(files, target) == text then files else files[target := text];
  }

  lemma {:induction false} LosingStart(targets: seq<Path>, maxRetryCount: int, commit: nat -> bool, i: nat, n: nat)
    requires i < |targets| && CanSucceed(targets, maxRetryCount, i) && n <= i
    ensures var files := map t | t in targets :: OLD_TEXT;
      var p := RunPlan(LosingWorld(targets, commit, i), targets, maxRetryCount, files, n);
      p.ending.Going? && p.files == p.head == p.kept == files
  {
    if n > 0 {
      var files := map t | t in targets :: OLD_TEXT;
      var w := LosingWorld(targets, commit, i);
      LosingStart(targets, maxRetryCount, commit, i, n - 1);
      RunPlanStep(w, targets, maxRetryCount, files, n - 1);
      var p := RunPlan(w, targets, maxRetryCount, files, n - 1);
      NewTextDiffers(files, targets, n - 1);
      hide RunPlan, SubTaskStep, CurrentContent;
      WrittenStep(w, n - 1, targets[n - 1], maxRetryCount, p, OLD_TEXT);
    }
  }

  lemma WrittenStep(w: World, i: nat, target: Path, maxRetryCount: int, p: PlanRun, text: string)
    requires p.ending.Going? && maxRetryCount >= 0 && target.name != "" && (text == OLD_TEXT || text == NEW_TEXT)
    requires w.context(i) && w.attempt(i, 0) == Writing(target, text)
    ensures var q := SubTaskStep(w, i, target, maxRetryCount, p);
      && q.ending.Going? && q.files == q.kept && q.head == (if w.commit(i) then q.files else p.head)
      && q.files == if CurrentContent(p.files, target) == text then p.files else p.files[target := text]
  {
    WritingPasses(p.files, target, text);
    RetryTurn(w, i, target, maxRetryCount, 0, Entering(p));
    hide TryOnce, RetryLoop, CurrentContent;
  }

  /** Wherever a commit that matters fails, some run loses what sub-task i had achieved. */
  lemma LosingRun(targets: seq<Path>, maxRetryCount: int, commit: nat -> bool, i: nat)
    requires i < |targets| - 1 && CanSucceed(targets, maxRetryCount, i) && !commit(i)
    ensures !KeepsWork(LosingWorld(targets, commit, i), targets, maxRetryCount, map t | t in targets :: OLD_TEXT)
  {
    var files := map t | t in targets :: OLD_TEXT;
    var w := LosingWorld(targets, commit, i);
    LosingStart(targets, maxRetryCount, commit, i, i);
    RunPlanStep(w, targets, maxRetryCount, files, i);
    RunPlanStep(w, targets, maxRetryCount, files, i + 1);
    var p := RunPlan(w, targets, maxRetryCount, files, i);
    var q := RunPlan(w, targets, maxRetryCount, files, i + 1);
    NewTextDiffers(files, targets, i);
    hide RunPlan, SubTaskStep, CurrentContent, CanSucceed;
    WrittenStep(w, i, targets[i], maxRetryCount, p, NEW_TEXT);
    CrashedStep(w, i + 1, targets[i + 1], maxRetryCount, q);
    EndedRunStays(w, targets, maxRetryCount, files, i + 2);
  }

  lemma NewTextDiffers(files: Files, targets: seq<Path>, i: nat)
    requires i < |targets| && files == map t | t in targets :: OLD_TEXT
    ensures CurrentContent(files, targets[i]) == OLD_TEXT != NEW_TEXT && files != files[targets[i] := NEW_TEXT]
  {
    assert targets[i] in files && Trim(OLD_TEXT) == OLD_TEXT;
    assert files[targets[i]] != files[targets[i] := NEW_TEXT][targets[i]];
  }

  lemma CrashedStep(w: World, i: nat, target: Path, maxRetryCount: int, p: PlanRun)
    requires p.ending.Going? && w.context(i) && w.attempt(i, 0).ProviderCrashed? && maxRetryCount >= 0
    ensures var q := SubTaskStep(w, i, target, maxRetryCount, p);
      q.ending.Halted? && q.files == p.head && q.kept == p.kept
  {
    RetryTurn(w, i, target, maxRetryCount, 0, Entering(p));
    hide RetryLoop;
  }

  // ---------------------------------------------------------------- the statuses a caller sees

  datatype SubTaskStatus = PENDING | RUNNING | SUCCESS | FAILED | SKIPPED

  function StatusOf(p: PlanRun, j: nat): SubTaskStatus {
    if j < |p.results| then (if p.results[j].ok then SUCCESS else FAILED)
    else if p.ending.Halted? then SKIPPED
    else if p.ending.ContextError? && j == |p.results| then RUNNING
    else PENDING
  }

  function Successes(results: seq<SubTaskResult>): nat {
    if results == [] then 0 else Successes(results[..|results| - 1]) + if results[|results| - 1].ok then 1 else 0
  }

  lemma {:induction false} SuccessesOf(results: seq<SubTaskResult>)
    ensures Successes(results) <= |results|
    ensures (forall j :: 0 <= j < |results| ==> results[j].ok) ==> Successes(results) == |results|
  {
    if results != [] {
      SuccessesOf(results[..|results| - 1]);
    }
  }

  /**
    Without a context error the statuses read SUCCESS*, then perhaps one FAILED followed only by
    SKIPPED, and completed + failed + skipped = total counts exactly those statuses.
  */
  lemma StatusesHaveShape(w: World, targets: seq<Path>, maxRetryCount: int, files: Files)
    requires RunPlan(w, targets, maxRetryCount, files, |targets|).ending != ContextError
    ensures var p, total := RunPlan(w, targets, maxRetryCount, files, |targets|), |targets|;
      var completed := Successes(p.results);
      var failed := |p.results| - completed;
      && completed <= total && failed == (if completed < total then 1 else 0)
      && forall j :: 0 <= j < total ==>
           StatusOf(p, j) == if j < completed then SUCCESS else if j == completed then FAILED else SKIPPED
  {
    ResultsHaveShape(w, targets, maxRetryCount, files, |targets|);
    var p := RunPlan(w, targets, maxRetryCount, files, |targets|);
    hide RunPlan, Fits, RetrySum;
    if p.ending.Halted? {
      var before := p.results[..|p.results| - 1];
      SuccessesOf(before);
    } else {
      SuccessesOf(p.results);
    }
  }

  /** A context error ends the run at a sub-task without context, which stays RUNNING, with the rest PENDING. */
  lemma {:induction false} ContextErrorStops(w: World, targets: seq<Path>, maxRetryCount: int, files: Files, n: nat)
    requires n <= |targets| && RunPlan(w, targets, maxRetryCount, files, n).ending.ContextError?
    ensures var p := RunPlan(w, targets, maxRetryCount, files, n);
      && |p.results| < n && !w.context(|p.results|)
      && forall j :: 0 <= j < |targets| ==>
           StatusOf(p, j) == if j < |p.results| then SUCCESS else if j == |p.results| then RUNNING else PENDING
  {
    ResultsHaveShape(w, targets, maxRetryCount, files, n);
    ErrorStatuses(n, maxRetryCount, RunPlan(w, targets, maxRetryCount, files, n));
    RunPlanStep(w, targets, maxRetryCount, files, n - 1);
    var p := RunPlan(w, targets, maxRetryCount, files, n - 1);
    hide RunPlan, SubTaskStep, Shape, StatusOf;
    if p.ending.ContextError? {
      ContextErrorStops(w, targets, maxRetryCount, files, n - 1);
    } else if p.ending.Going? {
      ResultsHaveShape(w, targets, maxRetryCount, files, n - 1);
      ShapeCounts(n - 1, maxRetryCount, p);
      StepWithContext(w, n - 1, targets[n - 1], maxRetryCount, p);
    }
  }

  lemma ErrorStatuses(n: nat, maxRetryCount: int, p: PlanRun)
    requires Shape(n, maxRetryCount, p) && p.ending.ContextError?
    ensures |p.results| < n
    ensures forall j: nat ::
      StatusOf(p, j) == if j < |p.results| then SUCCESS else if j == |p.results| then RUNNING else PENDING
  {
    hide Fits, RetrySum;
  }

  lemma StepWithContext(w: World, i: nat, target: Path, maxRetryCount: int, p: PlanRun)
    requires p.ending.Going?
    ensures var q := SubTaskStep(w, i, target, maxRetryCount, p);
      if w.context(i) then !q.ending.ContextError? else q.results == p.results
  {
    hide RetryLoop;
  }

  // ---------------------------------------------------------------- the service

  /** The working tree with its last commit. */
  class Repository {
    var files: Files
    var head: Files

    constructor (files: Files)
      ensures this.files == files && head == files
    {
      this.files, head := files, files;
    }

    /** `git add -A` and `git commit`: snapshots the whole tree, unless git fails. */
    method Commit(succeeds: bool)
      modifies this
      ensures files == old(files) && head == if succeeds then files else old(head)
    {
      if succeeds {
        head := files;
      }
    }

    /** `git reset --hard` and `git clean`: the whole tree goes back to the snapshot. */
    method Rollback()
      modifies this
      ensures head == old(head) && files == head
    {
      files := head;
    }
  }

  method UpdateWorkspace(repo: Repository, patches: seq<Patch>, crash: Option<Crash>)
    returns (modifiedFiles: seq<Path>, filesSkipped: seq<Path>, success: bool)
    modifies repo
    ensures repo.head == old(repo.head)
    ensures Update(repo.files, modifiedFiles, filesSkipped, success) == Updated(old(repo.files), patches, crash)
  {
    ghost var before := repo.files;
    modifiedFiles, filesSkipped := [], [];
    for i := 0 to |patches|
      invariant repo.head == old(repo.head)
      invariant Update(repo.files, modifiedFiles, filesSkipped, true) == Applied(before, patches, i)
      invariant crash.Some? ==> i <= crash.value.position
    {
      var patch := patches[i];
      if crash.Some? && crash.value.position == i {
        if crash.value.leftover.Some? {
          repo.files := repo.files[patch.fileName := crash.value.leftover.value];
        }
        return modifiedFiles, filesSkipped, false;
      }
      if CurrentContent(repo.files, patch.fileName) == patch.newContent {
        filesSkipped := filesSkipped + [patch.fileName];
      } else {
        repo.files := repo.files[patch.fileName := patch.newContent];
        modifiedFiles := modifiedFiles + [patch.fileName];
      }
    }
    success := true;
  }

  method TryAttempt(repo: Repository, target: Path, a: Attempt)
    returns (modified: set<Path>, skipped: set<Path>, verdict: Verdict)
    modifies repo
    ensures repo.head == old(repo.head)
    ensures Tried(repo.files, modified, skipped, verdict) == TryOnce(old(repo.files), target, a)
  {
    modified, skipped := {}, {};
    match a
    case ProviderCrashed =>
      verdict := Abort;
    case ProviderFailed =>
      verdict := Retry;
    case InvalidResponse =>
      verdict := Retry;
    case Answered(blocks, crash, verified) =>
      var generated, patches := GeneratePatches(blocks, [target]);
      if !generated {
        return {}, {}, Retry;
      }
      var modifiedFiles, filesSkipped, updated := UpdateWorkspace(repo, patches, crash);
      modified, skipped := Elems(modifiedFiles), Elems(filesSkipped);
      verdict := if updated && verified then Passed else Retry;
  }

  /** The retry loop of one sub-task, with the two counters that run on over all sub-tasks. */
  method RunSubTask(repo: Repository, w: World, i: nat, target: Path, maxRetryCount: int, modified: set<Path>,
                    skipped: set<Path>, total0: nat, history0: nat)
    returns (ok: bool, retryCount: nat, totalRetryCount: nat, retryHistory: nat, allModified: set<Path>,
             allSkipped: set<Path>)
    modifies repo
    ensures repo.head == old(repo.head)
    ensures totalRetryCount == total0 + retryCount && retryHistory == history0 + retryCount
    ensures SubRun(repo.files, allModified, allSkipped, ok, retryCount, totalRetryCount, retryHistory) ==
            RetryLoop(w, i, target, maxRetryCount, 0,
              SubRun(old(repo.files), modified, skipped, false, 0, total0, history0))
  {
    hide RetryLoop, TryOnce;
    ghost var start := SubRun(repo.files, modified, skipped, false, 0, total0, history0);
    ghost var now := start;
    ok, retryCount, allModified, allSkipped := false, 0, modified, skipped;
    totalRetryCount, retryHistory := total0, history0;
    while retryCount <= maxRetryCount
      invariant retryCount > 0 ==> retryCount <= maxRetryCount
      invariant repo.head == old(repo.head) && !ok
      invariant now == SubRun(repo.files, allModified, allSkipped, false, now.retries, totalRetryCount, retryHistory)
      invariant RetryLoop(w, i, target, maxRetryCount, 0, start) ==
        RetryLoop(w, i, target, maxRetryCount, retryCount, now)
      decreases maxRetryCount - retryCount
    {
      RetryTurn(w, i, target, maxRetryCount, retryCount, now);
      ghost var t := TryOnce(repo.files, target, w.attempt(i, retryCount));
      if retryCount > 0 {
        totalRetryCount := totalRetryCount + 1;
      }
      var newlyModified, newlySkipped, verdict := TryAttempt(repo, target, w.attempt(i, retryCount));
      allModified, allSkipped := allModified + newlyModified, allSkipped + newlySkipped;
      now := Turn(now, retryCount, t);
      if verdict.Retry? && retryCount < maxRetryCount {
        retryCount := retryCount + 1;
        retryHistory := retryHistory + 1;
        now := now.(history := retryHistory);
        continue;
      }
      ok := verdict.Passed?;
      break;
    }
    if retryCount > maxRetryCount {
      RetryTurn(w, i, target, maxRetryCount, retryCount, now);
    }
    RetryLoopCounts(w, i, target, maxRetryCount, 0, start);
  }

  datatype TaskResult = TaskResult(ending: Ending, results: seq<SubTaskResult>, retryCount: nat, retryHistory: nat,
                                   modifiedFiles: set<Path>, filesSkipped: set<Path>)

  /** A context error discards everything the run has gathered. */
  function ResultOf(p: PlanRun): TaskResult {
    if p.ending.ContextError? then TaskResult(ContextError, [], 0, 0, {}, {})
    else TaskResult(p.ending, p.results, p.total, p.history, p.modified, p.skipped)
  }

  /** What the caller gets: the reports and counters of the whole run, or nothing at all after a context error. */
  lemma ResultReports(w: World, targets: seq<Path>, maxRetryCount: int, files: Files)
    ensures var p := RunPlan(w, targets, maxRetryCount, files, |targets|);
      var r := ResultOf(p);
      if p.ending.ContextError? then
        r.ending == ContextError && r.results == [] && r.retryCount == r.retryHistory == 0
        && r.modifiedFiles == r.filesSkipped == {}
      else
        && r.ending == p.ending && r.results == p.results && r.retryCount == r.retryHistory == RetrySum(r.results)
        && |r.results| <= |targets|
        && r.modifiedFiles == Wrote(w, targets, maxRetryCount, files, r.results)
        && r.filesSkipped == Repeated(w, targets, maxRetryCount, files, r.results)
  {
    PlanReports(w, targets, maxRetryCount, files, |targets|);
    ResultsHaveShape(w, targets, maxRetryCount, files, |targets|);
    hide RunPlan, Wrote, Repeated, Fits;
  }

  method ExecuteTask(repo: Repository, w: World, targets: seq<Path>, maxRetryCount: int)
    returns (r: TaskResult, statuses: seq<SubTaskStatus>)
    requires repo.files == repo.head
    modifies repo
    ensures var p := RunPlan(w, targets, maxRetryCount, old(repo.files), |targets|);
      && repo.files == p.files && repo.head == p.head
      && r == ResultOf(p)
      && |statuses| == |targets| && forall j :: 0 <= j < |targets| ==> statuses[j] == StatusOf(p, j)
  {
    ghost var start := repo.files;
    ghost var p := StartRun(start);
    var i, ending, results, totalRetryCount, retryHistory, modified, skipped := 0, Going, [], 0, 0, {}, {};
    statuses := seq(|targets|, _ => PENDING);
    while i < |targets| && ending.Going?
      invariant i <= |targets| && p == RunPlan(w, targets, maxRetryCount, start, i) && p.ending == ending
      invariant repo.files == p.files && repo.head == p.head
      invariant results == p.results && modified == p.modified && skipped == p.skipped
      invariant totalRetryCount == p.total && retryHistory == p.history
      invariant |statuses| == |targets| && forall j :: 0 <= j < |targets| ==> statuses[j] == StatusOf(p, j)
      invariant ending.Going? ==> |results| == i
      decreases |targets| - i
    {
      hide RetryLoop, RunPlan;
      statuses := statuses[i := RUNNING];
      ghost var q := SubTaskStep(w, i, targets[i], maxRetryCount, p);
      RunPlanStep(w, targets, maxRetryCount, start, i);
      if !w.context(i) {
        ending := ContextError;
      } else {
        var ok, retryCount;
        ok, retryCount, totalRetryCount, retryHistory, modified, skipped :=
          RunSubTask(repo, w, i, targets[i], maxRetryCount, modified, skipped, totalRetryCount, retryHistory);
        results := results + [SubTaskResult(ok, retryCount)];
        if ok {
          repo.Commit(w.commit(i));
          statuses := statuses[i := SUCCESS];
        } else {
          repo.Rollback();
          ending := Halted;
          statuses := seq(|targets|, j requires 0 <= j < |statuses| =>
            if j < i then statuses[j] else if j == i then FAILED else SKIPPED);
        }
      }
      p := q;
      i := i + 1;
    }
    EndedRunStays(w, targets, maxRetryCount, start, i);
    r := if ending.ContextError? then TaskResult(ContextError, [], 0, 0, {}, {})
         else TaskResult(ending, results, totalRetryCount, retryHistory, modified, skipped);
  }

  lemma RunPlanStep(w: World, targets: seq<Path>, maxRetryCount: int, files: Files, i: nat)
    requires i < |targets|
    ensures var p := RunPlan(w, targets, maxRetryCount, files, i);
      RunPlan(w, targets, maxRetryCount, files, i + 1) ==
      if p.ending.Going? then SubTaskStep(w, i, targets[i], maxRetryCount, p) else p
  {
    hide SubTaskStep;
  }

  lemma {:induction false} EndedRunStays(w: World, targets: seq<Path>, maxRetryCount: int, files: Files, i: nat)
    requires i <= |targets|
    requires i == |targets| || !RunPlan(w, targets, maxRetryCount, files, i).ending.Going?
    ensures RunPlan(w, targets, maxRetryCount, files, |targets|) == RunPlan(w, targets, maxRetryCount, files, i)
    decreases |targets| - i
  {
    if i < |targets| {
      RunPlanStep(w, targets, maxRetryCount, files, i);
      EndedRunStays(w, targets, maxRetryCount, files, i + 1);
    }
  }
}
