/** Transitive symbol resolution (dependency_resolver.ts): a worklist over first-match symbols. */
module Resolver {
  import opened Common

  datatype SymbolKind = FUNCTION | CLASS | INTERFACE | ENUM | TYPE_ALIAS | IMPORT | EXPORT | OTHER

  datatype CodeSymbol = CodeSymbol(name: Id, kind: SymbolKind, startLine: int, endLine: int, content: string,
                                   dependencies: seq<Id>)

  datatype FileAst = FileAst(filePath: Id, symbols: seq<CodeSymbol>)

  datatype External = External(filePath: Id, symbolName: Id)

  function Find(symbols: seq<CodeSymbol>, name: Id): Option<CodeSymbol> {
    if symbols == [] then None else if symbols[0].name == name then Some(symbols[0]) else Find(symbols[1..], name)
  }

  predicate IsExported(s: CodeSymbol) {
    s.kind == EXPORT || Includes(s.content, "export ") || Includes(s.content, "export {")
  }

  predicate Exports(symbols: seq<CodeSymbol>, name: Id) {
    exists i | 0 <= i < |symbols| :: symbols[i].name == name && IsExported(symbols[i])
  }

  predicate OtherExporter(file: FileAst, other: FileAst, name: Id) {
    other.filePath != file.filePath && Exports(other.symbols, name)
  }

  function ExternalOf(file: FileAst, allFiles: seq<FileAst>, name: Id): Option<External> {
    if allFiles == [] then None
    else if OtherExporter(file, allFiles[0], name) then Some(External(allFiles[0].filePath, name))
    else ExternalOf(file, allFiles[1..], name)
  }

  // ---------------------------------------------------------------- what an exporter is

  /** The file declares the name in a symbol of the type 'export' or with "export " somewhere in its text. */
  ghost predicate Declares(f: FileAst, name: Id) {
    exists k :: 0 <= k < |f.symbols| && DeclaredBy(f.symbols[k], name)
  }

  ghost predicate DeclaredBy(s: CodeSymbol, name: Id) {
    && s.name == name
    && (s.kind == EXPORT || exists before, after :: s.content == before + "export " + after)
  }

  lemma ExportedMeans(s: CodeSymbol)
    ensures IsExported(s) <==> s.kind == EXPORT || exists before, after :: s.content == before + "export " + after
  {
    IncludesMeans(s.content, "export ");
    IncludesMeans(s.content, "export {");
    if before, after :| s.content == before + "export {" + after {
      assert "export {" == "export " + "{";
      assert s.content == before + "export " + ("{" + after);
    }
    hide Includes;
  }

  /** The search's own test of a file, spelled out. */
  lemma OtherExporterMeans(file: FileAst, other: FileAst, name: Id)
    ensures OtherExporter(file, other, name) <==> other.filePath != file.filePath && Declares(other, name)
  {
    hide IsExported;
    forall s {
      ExportedMeans(s);
    }
  }

  /** The first of the files, in their order, that is another file and declares the name; None if none does. */
  ghost predicate FirstExporter(file: FileAst, allFiles: seq<FileAst>, name: Id, found: Option<External>) {
    match found
    case None => forall f :: f in allFiles && f.filePath != file.filePath ==> !Declares(f, name)
    case Some(e) => exists i :: 0 <= i < |allFiles| && ExporterAt(file, allFiles, name, e, i)
  }

  ghost predicate ExporterAt(file: FileAst, allFiles: seq<FileAst>, name: Id, e: External, i: nat)
    requires i < |allFiles|
  {
    && allFiles[i].filePath != file.filePath && Declares(allFiles[i], name) && e == External(allFiles[i].filePath, name)
    && forall j :: 0 <= j < i && allFiles[j].filePath != file.filePath ==> !Declares(allFiles[j], name)
  }

  /** The search answers e exactly when e is the first exporter. */
  lemma {:induction false} ExternalOfIsFirst(file: FileAst, allFiles: seq<FileAst>, name: Id, found: Option<External>)
    ensures ExternalOf(file, allFiles, name) == found <==> FirstExporter(file, allFiles, name, found)
  {
    hide OtherExporter, Declares;
    if allFiles != [] {
      var rest := allFiles[1..];
      ExternalOfIsFirst(file, rest, name, found);
      OtherExporterMeans(file, allFiles[0], name);
      assert forall f :: f in allFiles <==> f == allFiles[0] || f in rest;
      if OtherExporter(file, allFiles[0], name) {
        assert ExporterAt(file, allFiles, name, External(allFiles[0].filePath, name), 0);
      } else if found.Some? {
        if i :| 0 <= i < |rest| && ExporterAt(file, rest, name, found.value, i) {
          assert forall j :: 0 < j < i + 1 ==> allFiles[j] == rest[j - 1];
          assert ExporterAt(file, allFiles, name, found.value, i + 1);
        }
        if i :| 0 <= i < |allFiles| && ExporterAt(file, allFiles, name, found.value, i) {
          assert forall j :: 0 <= j < i - 1 ==> rest[j] == allFiles[j + 1];
          assert ExporterAt(file, rest, name, found.value, i - 1);
        }
      }
    }
  }

  ghost predicate FirstOfName(symbols: seq<CodeSymbol>, name: Id, k: nat)
    requires k < |symbols|
  {
    symbols[k].name == name && forall j :: 0 <= j < k ==> symbols[j].name != name
  }

  /** `find` answers with the first symbol of the name. */
  lemma {:induction false} FindIsFirst(symbols: seq<CodeSymbol>, name: Id, s: CodeSymbol)
    ensures Find(symbols, name) == Some(s) <==>
      exists k :: 0 <= k < |symbols| && symbols[k] == s && FirstOfName(symbols, name, k)
  {
    if symbols != [] {
      var rest := symbols[1..];
      FindIsFirst(rest, name, s);
      if symbols[0].name == name {
        assert FirstOfName(symbols, name, 0);
      } else {
        if k :| 0 <= k < |rest| && rest[k] == s && FirstOfName(rest, name, k) {
          assert symbols[k + 1] == s && forall j :: 0 < j < k + 1 ==> symbols[j] == rest[j - 1];
          assert FirstOfName(symbols, name, k + 1);
        }
        if k :| 0 <= k < |symbols| && symbols[k] == s && FirstOfName(symbols, name, k) {
          assert rest[k - 1] == s && forall j :: 0 <= j < k - 1 ==> rest[j] == symbols[j + 1];
          assert FirstOfName(rest, name, k - 1);
        }
      }
    }
  }

  lemma {:induction false} FindNames(symbols: seq<CodeSymbol>, name: Id)
    ensures Find(symbols, name).Some? ==> Find(symbols, name).value.name == name && Find(symbols, name).value in symbols
    ensures Find(symbols, name).None? ==> forall s :: s in symbols ==> s.name != name
  {
    if symbols != [] {
      FindNames(symbols[1..], name);
      assert forall s :: s in symbols <==> s == symbols[0] || s in symbols[1..];
    }
  }

  // ---------------------------------------------------------------- reachability

  ghost predicate Refers(file: FileAst, a: Id, b: Id) {
    var s := Find(file.symbols, a);
    s.Some? && b in s.value.dependencies
  }

  ghost predicate Chain(file: FileAst, p: seq<Id>) {
    p != [] && forall i :: 0 < i < |p| ==> Refers(file, p[i - 1], p[i])
  }

  /** A chain of references through local symbols leads from start to name. */
  ghost predicate Reachable(file: FileAst, start: Id, name: Id) {
    exists p :: Chain(file, p) && p[0] == start && p[|p| - 1] == name
  }

  lemma ReachableStep(file: FileAst, start: Id, a: Id, b: Id)
    requires Reachable(file, start, a) && Refers(file, a, b)
    ensures Reachable(file, start, b)
  {
    var p :| Chain(file, p) && p[0] == start && p[|p| - 1] == a;
    var q := p + [b];
    assert Chain(file, q) && q[0] == start && q[|q| - 1] == b;
  }

  lemma StartReachable(file: FileAst, start: Id)
    ensures Reachable(file, start, start)
  {
    assert Chain(file, [start]) && [start][0] == start;
  }

  ghost predicate ClosedUnder(file: FileAst, visited: set<Id>) {
    forall a, b :: a in visited && Refers(file, a, b) ==> b in visited
  }

  lemma {:induction false} ChainStaysInside(file: FileAst, visited: set<Id>, p: seq<Id>)
    requires ClosedUnder(file, visited) && Chain(file, p) && p[0] in visited
    ensures p[|p| - 1] in visited
  {
    if |p| > 1 {
      var q := p[..|p| - 1];
      assert Chain(file, q) && q[|q| - 1] == p[|p| - 2] && q[0] == p[0];
      ChainStaysInside(file, visited, q);
      assert Refers(file, p[|p| - 2], p[|p| - 1]);
    }
  }

  /** A closed set of reachable names that holds the start is the set of all reachable names. */
  lemma ClosedIsReachable(file: FileAst, start: Id, visited: set<Id>)
    requires start in visited && ClosedUnder(file, visited)
    requires forall n :: n in visited ==> Reachable(file, start, n)
    ensures forall n :: n in visited <==> Reachable(file, start, n)
  {
    forall n | Reachable(file, start, n)
      ensures n in visited
    {
      var p :| Chain(file, p) && p[0] == start && p[|p| - 1] == n;
      ChainStaysInside(file, visited, p);
    }
  }

  /** Every name the worklist can ever see. */
  function Universe(start: Id, symbols: seq<CodeSymbol>): set<Id> {
    if symbols == [] then {start} else Universe(start, symbols[1..]) + Elems(symbols[0].dependencies)
  }

  lemma {:induction false} UniverseHolds(start: Id, symbols: seq<CodeSymbol>)
    ensures start in Universe(start, symbols)
    ensures forall s :: s in symbols ==> Elems(s.dependencies) <= Universe(start, symbols)
  {
    if symbols != [] {
      UniverseHolds(start, symbols[1..]);
      assert forall s :: s in symbols <==> s == symbols[0] || s in symbols[1..];
    }
  }

  // ---------------------------------------------------------------- what resolving means

  /** The names resolving must classify: what start reaches, apart from itself. */
  ghost predicate Wanted(file: FileAst, start: Id, n: Id) {
    n != start && Reachable(file, start, n)
  }

  ghost predicate WantedLocal(file: FileAst, start: Id, s: CodeSymbol) {
    Wanted(file, start, s.name) && Find(file.symbols, s.name) == Some(s)
  }

  ghost predicate WantedExternal(file: FileAst, allFiles: seq<FileAst>, start: Id, e: External) {
    && Wanted(file, start, e.symbolName) && Find(file.symbols, e.symbolName).None?
    && FirstExporter(file, allFiles, e.symbolName, Some(e))
  }

  /** The map key of an external result: file path, colon, name. */
  function Key(e: External): Id {
    Id(e.filePath.name + ":" + e.symbolName.name)
  }

  ghost predicate DistinctNames(symbols: seq<CodeSymbol>) {
    forall i, j :: 0 <= i < j < |symbols| ==> symbols[i].name != symbols[j].name
  }

  ghost predicate ExactLocals(file: FileAst, start: Id, local: seq<CodeSymbol>) {
    DistinctNames(local) && forall s :: s in local <==> WantedLocal(file, start, s)
  }

  /** One wanted result under each key of a wanted result. */
  ghost predicate KeyedExternals(file: FileAst, allFiles: seq<FileAst>, start: Id, external: map<Id, External>) {
    && (forall k :: k in external ==> WantedExternal(file, allFiles, start, external[k]) && Key(external[k]) == k)
    && (forall e :: WantedExternal(file, allFiles, start, e) ==> Key(e) in external)
  }

  ghost predicate ExactExternals(file: FileAst, allFiles: seq<FileAst>, start: Id, external: map<Id, External>) {
    forall e :: WantedExternal(file, allFiles, start, e) <==> e in external.Values
  }

  ghost predicate KeysDiffer(file: FileAst, allFiles: seq<FileAst>, start: Id) {
    forall e, e' ::
      WantedExternal(file, allFiles, start, e) && WantedExternal(file, allFiles, start, e') && Key(e) == Key(e') ==>
        e == e'
  }

  lemma ExactIfKeysDiffer(file: FileAst, allFiles: seq<FileAst>, start: Id, external: map<Id, External>)
    requires KeyedExternals(file, allFiles, start, external) && KeysDiffer(file, allFiles, start)
    ensures ExactExternals(file, allFiles, start, external)
  {
    hide WantedExternal, Key;
    forall e
      ensures WantedExternal(file, allFiles, start, e) <==> e in external.Values
    {
      if WantedExternal(file, allFiles, start, e) {
        assert external[Key(e)] in external.Values;
      }
    }
  }

  /** At most one external result per name. */
  lemma OneExternalPerName(file: FileAst, allFiles: seq<FileAst>, start: Id, external: map<Id, External>, k: Id, k': Id)
    requires KeyedExternals(file, allFiles, start, external) && k in external && k' in external
    requires external[k].symbolName == external[k'].symbolName
    ensures k == k'
  {
    assert WantedExternal(file, allFiles, start, external[k]) && WantedExternal(file, allFiles, start, external[k']);
    ExternalOfIsFirst(file, allFiles, external[k].symbolName, Some(external[k]));
    ExternalOfIsFirst(file, allFiles, external[k].symbolName, Some(external[k']));
    hide Reachable, Find;
  }

  lemma ColonIsLast(a: string, b: string, i: nat)
    requires ':' !in b && i < |a + ":" + b| && (a + ":" + b)[i] == ':'
    ensures i <= |a|
  {
    assert forall j :: |a| < j < |a + ":" + b| ==> (a + ":" + b)[j] in b;
  }

  lemma LastColonSplits(a: string, b: string, c: string, d: string)
    requires a + ":" + b == c + ":" + d && ':' !in b && ':' !in d
    ensures a == c && b == d
  {
    var s := a + ":" + b;
    assert s[|a|] == ':' && (c + ":" + d)[|c|] == ':';
    ColonIsLast(a, b, |c|);
    ColonIsLast(c, d, |a|);
    assert s[..|a|] == a && s[..|c|] == c;
    assert s[|a| + 1..] == b && s[|c| + 1..] == d;
  }

  /** The parser takes references from identifiers only, and those hold no colon. */
  ghost predicate PlainReferences(file: FileAst) {
    forall s, n :: s in file.symbols && n in s.dependencies ==> ':' !in n.name
  }

  lemma WantedIsPlain(file: FileAst, start: Id, n: Id)
    requires PlainReferences(file) && Wanted(file, start, n)
    ensures ':' !in n.name
  {
    var p :| Chain(file, p) && p[0] == start && p[|p| - 1] == n;
    assert Refers(file, p[|p| - 2], n);
    FindNames(file.symbols, p[|p| - 2]);
  }

  /** References without a colon never share a key. */
  lemma PlainNamesDiffer(file: FileAst, allFiles: seq<FileAst>, start: Id)
    requires PlainReferences(file)
    ensures KeysDiffer(file, allFiles, start)
  {
    forall e, e' |
      WantedExternal(file, allFiles, start, e) && WantedExternal(file, allFiles, start, e') && Key(e) == Key(e')
      ensures e == e'
    {
      WantedIsPlain(file, start, e.symbolName);
      WantedIsPlain(file, start, e'.symbolName);
      LastColonSplits(e.filePath.name, e.symbolName.name, e'.filePath.name, e'.symbolName.name);
    }
  }

  /** With plain references the external results are exact, whatever the file paths look like. */
  lemma PlainNamesAreExact(file: FileAst, allFiles: seq<FileAst>, start: Id, external: map<Id, External>)
    requires KeyedExternals(file, allFiles, start, external) && PlainReferences(file)
    ensures ExactExternals(file, allFiles, start, external)
  {
    PlainNamesDiffer(file, allFiles, start);
    ExactIfKeysDiffer(file, allFiles, start, external);
  }

  /** A reachable name that only other files declare, one of them as `export ..`, gets an external result. */
  lemma ExportIsResolved(file: FileAst, allFiles: seq<FileAst>, start: Id, external: map<Id, External>,
                         other: FileAst, s: CodeSymbol, rest: string)
    requires ExactExternals(file, allFiles, start, external)
    requires Wanted(file, start, s.name) && forall l :: l in file.symbols ==> l.name != s.name
    requires other in allFiles && other.filePath != file.filePath && s in other.symbols
    requires s.content == "export " + rest
    ensures exists e :: e in external.Values && e.symbolName == s.name
  {
    FindNames(file.symbols, s.name);
    assert s.content == "" + "export " + rest;
    assert DeclaredBy(s, s.name) && Declares(other, s.name);
    var found := ExternalOf(file, allFiles, s.name);
    ExternalOfIsFirst(file, allFiles, s.name, found);
    ExternalNames(file, allFiles, s.name);
    hide Wanted, Find, Declares;
    assert found.Some? && WantedExternal(file, allFiles, start, found.value);
  }

  // ---------------------------------------------------------------- the worklist

  /** Everything a visited name refers to is visited or queued; everything seen is reachable. */
  ghost predicate Frontier(file: FileAst, start: Id, visited: set<Id>, queue: seq<Id>) {
    && start in visited
    && (forall a, b :: a in visited && Refers(file, a, b) ==> b in visited || b in queue)
    && (forall n :: n in visited || n in queue ==> Reachable(file, start, n))
  }

  ghost predicate LocalsOf(file: FileAst, start: Id, visited: set<Id>, local: seq<CodeSymbol>) {
    && DistinctNames(local)
    && forall s :: s in local <==> s.name != start && s.name in visited && Find(file.symbols, s.name) == Some(s)
  }

  ghost predicate Outside(file: FileAst, allFiles: seq<FileAst>, start: Id, visited: set<Id>, e: External) {
    && e.symbolName != start && e.symbolName in visited && Find(file.symbols, e.symbolName).None?
    && ExternalOf(file, allFiles, e.symbolName) == Some(e)
  }

  ghost predicate ExternalsOf(file: FileAst, allFiles: seq<FileAst>, start: Id, visited: set<Id>,
                              external: map<Id, External>) {
    && (forall k :: k in external ==> Outside(file, allFiles, start, visited, external[k]) && Key(external[k]) == k)
    && (forall e :: Outside(file, allFiles, start, visited, e) ==> Key(e) in external)
  }

  /** The search of the other files, in order, for the first that exports the name. */
  method FindExporter(file: FileAst, allFiles: seq<FileAst>, name: Id) returns (found: Option<External>)
    ensures FirstExporter(file, allFiles, name, found)
  {
    for i := 0 to |allFiles|
      invariant forall j :: 0 <= j < i && allFiles[j].filePath != file.filePath ==> !Declares(allFiles[j], name)
    {
      hide Declares;
      OtherExporterMeans(file, allFiles[i], name);
      if allFiles[i].filePath != file.filePath && Exports(allFiles[i].symbols, name) {
        assert ExporterAt(file, allFiles, name, External(allFiles[i].filePath, name), i);
        return Some(External(allFiles[i].filePath, name));
      }
    }
    found := None;
  }

  method ResolveDependencies(symbolName: Id, file: FileAst, allFiles: seq<FileAst>)
    returns (local: seq<CodeSymbol>, external: map<Id, External>)
    ensures Find(file.symbols, symbolName).None? ==> local == [] && external == map[]
    ensures ExactLocals(file, symbolName, local)
    ensures KeyedExternals(file, allFiles, symbolName, external)
    ensures PlainReferences(file) ==> ExactExternals(file, allFiles, symbolName, external)
  {
    hide PlainReferences, ExactExternals;
    hide Find, Frontier, LocalsOf, ExternalsOf, ExactLocals, KeyedExternals, Universe;
    local, external := [], map[];
    var startSymbol := Find(file.symbols, symbolName);
    if startSymbol.None? {
      NothingFromNowhere(file, allFiles, symbolName);
      if PlainReferences(file) {
        PlainNamesAreExact(file, allFiles, symbolName, external);
      }
      return;
    }
    var queue := startSymbol.value.dependencies;
    var visited := {symbolName};
    ghost var universe := Universe(symbolName, file.symbols);
    WorkStarts(file, allFiles, symbolName, queue);
    while queue != []
      invariant Frontier(file, symbolName, visited, queue)
      invariant visited + Elems(queue) <= universe
      invariant LocalsOf(file, symbolName, visited, local)
      invariant ExternalsOf(file, allFiles, symbolName, visited, external)
      decreases |universe - visited|, |queue|
    {
      var currentRef := queue[0];
      ghost var waiting := queue;
      queue := queue[1..];
      Popped(file, symbolName, visited, waiting);
      if currentRef in visited {
        continue;
      }
      ghost var before := visited;
      visited := visited + {currentRef};
      SubsetSize(universe - visited, universe - before);
      var localMatch := Find(file.symbols, currentRef);
      if localMatch.Some? {
        VisitLocal(file, allFiles, symbolName, before, waiting, local, external);
        local := local + [localMatch.value];
        queue := queue + localMatch.value.dependencies;
      } else {
        var exporter := FindExporter(file, allFiles, currentRef);
        ExternalOfIsFirst(file, allFiles, currentRef, exporter);
        VisitOutside(file, allFiles, symbolName, before, waiting, local, external);
        if exporter.Some? {
          external := external[Key(exporter.value) := exporter.value];
        }
      }
    }
    WorkEnds(file, allFiles, symbolName, visited, local, external);
    if PlainReferences(file) {
      PlainNamesAreExact(file, allFiles, symbolName, external);
    }
  }

  lemma NothingFromNowhere(file: FileAst, allFiles: seq<FileAst>, start: Id)
    requires Find(file.symbols, start).None?
    ensures ExactLocals(file, start, []) && KeyedExternals(file, allFiles, start, map[])
  {
    StartReachable(file, start);
    ClosedIsReachable(file, start, {start});
  }

  lemma WorkStarts(file: FileAst, allFiles: seq<FileAst>, start: Id, queue: seq<Id>)
    requires Find(file.symbols, start).Some? && queue == Find(file.symbols, start).value.dependencies
    ensures Frontier(file, start, {start}, queue) && {start} + Elems(queue) <= Universe(start, file.symbols)
    ensures LocalsOf(file, start, {start}, []) && ExternalsOf(file, allFiles, start, {start}, map[])
  {
    FindNames(file.symbols, start);
    UniverseHolds(start, file.symbols);
    StartReachable(file, start);
    forall n | n in queue
      ensures Reachable(file, start, n)
    {
      ReachableStep(file, start, start, n);
    }
  }

  lemma Popped(file: FileAst, start: Id, visited: set<Id>, queue: seq<Id>)
    requires Frontier(file, start, visited, queue) && queue != []
    ensures queue[0] in visited ==> Frontier(file, start, visited, queue[1..])
    ensures queue[0] in Elems(queue) && Elems(queue[1..]) <= Elems(queue)
  {
    assert forall n :: n in queue <==> n == queue[0] || n in queue[1..];
  }

  lemma VisitLocal(file: FileAst, allFiles: seq<FileAst>, start: Id, visited: set<Id>, queue: seq<Id>,
                   local: seq<CodeSymbol>, external: map<Id, External>)
    requires queue != [] && queue[0] !in visited && Find(file.symbols, queue[0]).Some?
    requires Frontier(file, start, visited, queue) && LocalsOf(file, start, visited, local)
    requires ExternalsOf(file, allFiles, start, visited, external)
    ensures var n, s := queue[0], Find(file.symbols, queue[0]).value;
      && Frontier(file, start, visited + {n}, queue[1..] + s.dependencies)
      && LocalsOf(file, start, visited + {n}, local + [s])
      && ExternalsOf(file, allFiles, start, visited + {n}, external)
      && Elems(queue[1..] + s.dependencies) <= Elems(queue) + Universe(start, file.symbols)
  {
    var n, s := queue[0], Find(file.symbols, queue[0]).value;
    FindNames(file.symbols, n);
    UniverseHolds(start, file.symbols);
    hide Find, Universe, Reachable;
    FrontierGrows(file, start, visited, queue, s.dependencies);
    assert forall e :: Outside(file, allFiles, start, visited + {n}, e) <==> Outside(file, allFiles, start, visited, e);
  }

  lemma FrontierGrows(file: FileAst, start: Id, visited: set<Id>, queue: seq<Id>, more: seq<Id>)
    requires queue != [] && Frontier(file, start, visited, queue)
    requires forall b :: Refers(file, queue[0], b) <==> b in more
    ensures Frontier(file, start, visited + {queue[0]}, queue[1..] + more)
  {
    assert forall n :: n in queue <==> n == queue[0] || n in queue[1..];
    forall b | b in more
      ensures Reachable(file, start, b)
    {
      ReachableStep(file, start, queue[0], b);
    }
    hide Refers, Reachable;
  }

  lemma VisitOutside(file: FileAst, allFiles: seq<FileAst>, start: Id, visited: set<Id>, queue: seq<Id>,
                     local: seq<CodeSymbol>, external: map<Id, External>)
    requires queue != [] && queue[0] !in visited && Find(file.symbols, queue[0]).None?
    requires Frontier(file, start, visited, queue) && LocalsOf(file, start, visited, local)
    requires ExternalsOf(file, allFiles, start, visited, external)
    ensures var n, found := queue[0], ExternalOf(file, allFiles, queue[0]);
      && Frontier(file, start, visited + {n}, queue[1..])
      && LocalsOf(file, start, visited + {n}, local)
      && ExternalsOf(file, allFiles, start, visited + {n},
                     if found.Some? then external[Key(found.value) := found.value] else external)
  {
    var n := queue[0];
    FrontierGrows(file, start, visited, queue, []);
    assert queue[1..] + [] == queue[1..];
    NoLocalAdded(file, start, visited, n, local);
    assert n != start;
    ExternalAdded(file, allFiles, start, visited, n, external);
    hide Find, Reachable, ExternalOf, Refers, Key, LocalsOf, ExternalsOf, Frontier;
  }

  lemma NoLocalAdded(file: FileAst, start: Id, visited: set<Id>, n: Id, local: seq<CodeSymbol>)
    requires LocalsOf(file, start, visited, local) && Find(file.symbols, n).None?
    ensures LocalsOf(file, start, visited + {n}, local)
  {
    hide Find, DistinctNames;
  }

  lemma ExternalAdded(file: FileAst, allFiles: seq<FileAst>, start: Id, visited: set<Id>, n: Id,
                      external: map<Id, External>)
    requires ExternalsOf(file, allFiles, start, visited, external) && Find(file.symbols, n).None? && n != start
    ensures var found := ExternalOf(file, allFiles, n);
      ExternalsOf(file, allFiles, start, visited + {n},
                  if found.Some? then external[Key(found.value) := found.value] else external)
  {
    var found := ExternalOf(file, allFiles, n);
    ExternalNames(file, allFiles, n);
    hide Find, ExternalOf, Key;
    forall e
      ensures Outside(file, allFiles, start, visited + {n}, e) <==>
        Outside(file, allFiles, start, visited, e) || Some(e) == found
    {
    }
    hide Outside;
  }

  lemma {:induction false} ExternalNames(file: FileAst, allFiles: seq<FileAst>, n: Id)
    ensures var found := ExternalOf(file, allFiles, n); found.Some? ==> found.value.symbolName == n
  {
    if allFiles != [] {
      ExternalNames(file, allFiles[1..], n);
    }
  }

  lemma WorkEnds(file: FileAst, allFiles: seq<FileAst>, start: Id, visited: set<Id>, local: seq<CodeSymbol>,
                 external: map<Id, External>)
    requires Frontier(file, start, visited, [])
    requires LocalsOf(file, start, visited, local) && ExternalsOf(file, allFiles, start, visited, external)
    ensures ExactLocals(file, start, local) && KeyedExternals(file, allFiles, start, external)
  {
    ClosedIsReachable(file, start, visited);
    hide Find, Reachable, ExternalOf, FirstExporter, Refers, Key;
    forall e
      ensures Outside(file, allFiles, start, visited, e) <==> WantedExternal(file, allFiles, start, e)
    {
      ExternalOfIsFirst(file, allFiles, e.symbolName, Some(e));
    }
    hide Outside, WantedExternal;
  }
}
