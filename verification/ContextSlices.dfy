/** The slices a context prints (context_builder.ts): symbols nested inside another included symbol are dropped. */
module ContextSlices {
  import opened Common
  import opened Resolver

  predicate Covers(outer: CodeSymbol, inner: CodeSymbol) {
    outer.startLine <= inner.startLine && inner.endLine <= outer.endLine
  }

  predicate SameKey(a: CodeSymbol, b: CodeSymbol) {
    a.name == b.name && a.kind == b.kind
  }

  predicate IsNestedWithinAny(symbol: CodeSymbol, included: seq<CodeSymbol>) {
    exists parent | parent in included :: !SameKey(parent, symbol) && Covers(parent, symbol)
  }

  /** p is another symbol than s, by name or type, and the lines of s lie inside those of p. */
  ghost predicate SwallowedBy(s: CodeSymbol, p: CodeSymbol) {
    && (p.name != s.name || p.kind != s.kind)
    && p.startLine <= s.startLine && s.endLine <= p.endLine
  }

  /** `list.filter((s) => !isNestedWithinAny(s, included))`. */
  function DropNested(list: seq<CodeSymbol>, included: seq<CodeSymbol>): (kept: seq<CodeSymbol>)
    ensures forall s :: s in kept <==> s in list && !IsNestedWithinAny(s, included)
    ensures forall s :: s in kept <==> s in list && forall p :: p in included ==> !SwallowedBy(s, p)
  {
    if list == [] then []
    else (if IsNestedWithinAny(list[0], included) then [] else [list[0]]) + DropNested(list[1..], included)
  }

  /** The filter reads the list from the front and takes a symbol once or leaves it out. */
  lemma {:induction false} DropNestedFilters(list: seq<CodeSymbol>, included: seq<CodeSymbol>)
    ensures Subsequence(DropNested(list, included), list)
  {
    if list != [] {
      DropNestedFilters(list[1..], included);
      var head := if IsNestedWithinAny(list[0], included) then [] else [list[0]];
      HeadOrNothing(list[0]);
      SubsequenceConcat(head, [list[0]], DropNested(list[1..], included), list[1..]);
      assert [list[0]] + list[1..] == list;
    }
  }

  /** For a list without repetitions that says it all: the kept list is the only one of its members in list order. */
  lemma KeptListIsDetermined(list: seq<CodeSymbol>, kept: seq<CodeSymbol>)
    requires NoDup(list) && Subsequence(kept, list)
    requires forall s :: s in kept <==> s in list && forall p :: p in list ==> !SwallowedBy(s, p)
    ensures kept == DropNested(list, list)
  {
    DropNestedFilters(list, list);
    assert forall s :: s in kept <==> s in DropNested(list, list);
    hide SwallowedBy, IsNestedWithinAny, DropNested;
    SubsequenceIsUnique(kept, DropNested(list, list), list);
  }

  lemma HeadOrNothing(s: CodeSymbol)
    ensures Subsequence([], [s]) && Subsequence([s], [s])
  {
    assert [s][..0] == [];
  }

  ghost predicate DistinctKeys(list: seq<CodeSymbol>) {
    forall a, b :: a in list && b in list && SameKey(a, b) ==> a == b
  }

  ghost predicate SameRange(a: CodeSymbol, b: CodeSymbol) {
    a.startLine == b.startLine && a.endLine == b.endLine
  }

  ghost predicate HasLine(s: CodeSymbol, n: int) {
    s.startLine <= n <= s.endLine
  }

  /** Some symbol of the list prints the line. */
  ghost predicate Shows(list: seq<CodeSymbol>, n: int) {
    exists s :: s in list && HasLine(s, n)
  }

  ghost predicate Printed(s: CodeSymbol, printed: seq<CodeSymbol>) {
    exists k :: k in printed && Covers(k, s)
  }

  /** Every symbol lies inside a kept one. */
  ghost predicate LosesNoSymbol(list: seq<CodeSymbol>, kept: seq<CodeSymbol>) {
    forall s :: s in list ==> Printed(s, kept)
  }

  /** Every line of the list is still printed. */
  ghost predicate LosesNoLine(list: seq<CodeSymbol>, kept: seq<CodeSymbol>) {
    forall n :: Shows(list, n) ==> Shows(kept, n)
  }

  /** No larger range in the list contains this one. */
  ghost predicate Topmost(list: seq<CodeSymbol>, s: CodeSymbol) {
    forall r :: r in list && Covers(r, s) ==> SameRange(r, s)
  }

  /** Another symbol has the same range: each makes the filter drop the other. */
  ghost predicate Twinned(list: seq<CodeSymbol>, s: CodeSymbol) {
    exists t :: t in list && !SameKey(s, t) && SameRange(s, t)
  }

  /** Two different symbols share a topmost range. */
  ghost predicate TiedOnTop(list: seq<CodeSymbol>) {
    exists a :: a in list && Topmost(list, a) && Twinned(list, a)
  }

  ghost predicate StandsAlone(list: seq<CodeSymbol>, s: CodeSymbol) {
    s in list && Topmost(list, s) && !Twinned(list, s)
  }

  /** The line lies in a topmost range that is not shared. */
  ghost predicate ShownAlone(list: seq<CodeSymbol>, n: int) {
    exists s :: StandsAlone(list, s) && HasLine(s, n)
  }

  /** The line lies in a topmost range that is shared. */
  ghost predicate ShownTied(list: seq<CodeSymbol>, n: int) {
    exists s :: s in list && Topmost(list, s) && Twinned(list, s) && HasLine(s, n)
  }

  ghost predicate TiesAreBridged(list: seq<CodeSymbol>) {
    forall n :: ShownTied(list, n) ==> ShownAlone(list, n)
  }

  ghost function Above(list: seq<CodeSymbol>, s: CodeSymbol): set<CodeSymbol> {
    set r | r in list && Covers(r, s) && !SameRange(r, s)
  }

  /** What the filter keeps are the symbols of the topmost ranges that nobody shares. */
  lemma KeptStandAlone(list: seq<CodeSymbol>, s: CodeSymbol)
    requires DistinctKeys(list)
    ensures s in DropNested(list, list) <==> StandsAlone(list, s)
  {
    if s in list {
      assert forall r :: r in list && SameKey(r, s) ==> r == s;
    }
  }

  /** Climbing to ever larger ranges ends at a topmost one. */
  lemma {:induction false} ClimbToTop(list: seq<CodeSymbol>, s: CodeSymbol) returns (k: CodeSymbol)
    requires s in list
    ensures k in list && Topmost(list, k) && Covers(k, s)
    decreases |Above(list, s)|
  {
    if Topmost(list, s) {
      return s;
    }
    var next :| next in list && Covers(next, s) && !SameRange(next, s);
    assert next in Above(list, s) && next !in Above(list, next);
    SubsetSize(Above(list, next), Above(list, s));
    k := ClimbToTop(list, next);
  }

  /**
    For symbols with distinct (name, type): the kept ones are pairwise not nested, and every symbol
    lies inside a kept one if and only if no two symbols share a topmost range.
  */
  lemma NoSymbolLostIffNoTie(list: seq<CodeSymbol>)
    requires DistinctKeys(list)
    ensures forall a, b :: a in DropNested(list, list) && b in DropNested(list, list) && a != b ==> !Covers(a, b)
    ensures LosesNoSymbol(list, DropNested(list, list)) <==> !TiedOnTop(list)
  {
    forall s
      ensures s in DropNested(list, list) <==> StandsAlone(list, s)
    {
      KeptStandAlone(list, s);
    }
    if TiedOnTop(list) {
      var a :| a in list && Topmost(list, a) && Twinned(list, a);
      assert forall k :: StandsAlone(list, k) && Covers(k, a) ==> SameRange(k, a) && !SameKey(k, a);
      assert !Printed(a, DropNested(list, list));
    } else {
      forall s | s in list
        ensures Printed(s, DropNested(list, list))
      {
        var k := ClimbToTop(list, s);
        assert StandsAlone(list, k);
      }
    }
  }

  /** A line of the list lies in a topmost range; it is printed exactly when one of these is not shared. */
  lemma LineFate(list: seq<CodeSymbol>, n: int)
    requires DistinctKeys(list)
    ensures Shows(list, n) <==> ShownAlone(list, n) || ShownTied(list, n)
    ensures Shows(DropNested(list, list), n) <==> ShownAlone(list, n)
  {
    hide Topmost, Twinned, DistinctKeys;
    if s :| s in list && HasLine(s, n) {
      var k := ClimbToTop(list, s);
      assert HasLine(k, n);
    }
    forall s
      ensures s in DropNested(list, list) <==> StandsAlone(list, s)
    {
      KeptStandAlone(list, s);
    }
  }

  /** The filter loses no line if and only if each line of a shared topmost range is also in an unshared one. */
  lemma NoLineLostIffBridged(list: seq<CodeSymbol>)
    requires DistinctKeys(list)
    ensures LosesNoLine(list, DropNested(list, list)) <==> TiesAreBridged(list)
  {
    hide Shows, ShownAlone, ShownTied, DistinctKeys;
    forall n {
      LineFate(list, n);
    }
  }

  /** Two declarations on one line drop each other, and the line is lost. */
  lemma TieLosesLine(a: CodeSymbol, b: CodeSymbol)
    requires !SameKey(a, b) && a.startLine == a.endLine && SameRange(a, b)
    ensures DistinctKeys([a, b]) && Shows([a, b], a.startLine) && !Shows(DropNested([a, b], [a, b]), a.startLine)
  {
    var list := [a, b];
    assert a in list && b in list && HasLine(a, a.startLine);
    assert IsNestedWithinAny(a, list) && IsNestedWithinAny(b, list);
    hide DropNested, IsNestedWithinAny;
  }

  /** The resolver's visited set makes the entry file's symbols distinct, as the filter needs. */
  lemma EntrySymbolsDistinct(target: CodeSymbol, file: FileAst, local: seq<CodeSymbol>)
    requires ExactLocals(file, target.name, local)
    ensures DistinctKeys([target] + local)
  {
    forall a, b | a in [target] + local && b in [target] + local && SameKey(a, b)
      ensures a == b
    {
      if a in local {
        assert WantedLocal(file, target.name, a);
      }
      if b in local {
        assert WantedLocal(file, target.name, b);
      }
    }
  }

  lemma EachEntryOnce(target: CodeSymbol, file: FileAst, local: seq<CodeSymbol>)
    requires ExactLocals(file, target.name, local)
    ensures NoDup([target] + local)
  {
    assert forall i :: 0 <= i < |local| ==> WantedLocal(file, target.name, local[i]);
    hide Reachable, Find;
  }

  lemma {:induction false} FirstStaysFirst(a: seq<CodeSymbol>, b: seq<CodeSymbol>)
    requires NoDup(b) && b != [] && Subsequence(a, b)
    ensures b[0] in a ==> a[0] == b[0]
  {
    if |b| > 1 && a != [] {
      assert NoDup(b[..|b| - 1]);
      SubsequenceLast(a, b);
      var rest := if b[|b| - 1] in a then a[..|a| - 1] else a;
      assert b[0] in a ==> b[0] in rest;
      FirstStaysFirst(rest, b[..|b| - 1]);
    }
  }

  /**
    The entry file's part of a context: of the target and the local symbols it needs, those of the
    topmost ranges that nobody shares, each once and in the order of the list, so the target first if
    it is kept; what that loses is decided by the ties among them.
  */
  method SliceEntry(target: CodeSymbol, file: FileAst, allFiles: seq<FileAst>)
    returns (printed: seq<CodeSymbol>, ghost entrySymbols: seq<CodeSymbol>)
    ensures forall s :: s in entrySymbols <==> s == target || WantedLocal(file, target.name, s)
    ensures forall s :: s in printed <==> StandsAlone(entrySymbols, s)
    ensures forall s :: s in printed <==> s in entrySymbols && forall p :: p in entrySymbols ==> !SwallowedBy(s, p)
    ensures NoDup(entrySymbols) && entrySymbols != [] && entrySymbols[0] == target
    ensures NoDup(printed) && Subsequence(printed, entrySymbols)
    ensures target in printed ==> printed[0] == target
    ensures forall a, b :: a in printed && b in printed && a != b ==> !Covers(a, b)
    ensures LosesNoSymbol(entrySymbols, printed) <==> !TiedOnTop(entrySymbols)
    ensures LosesNoLine(entrySymbols, printed) <==> TiesAreBridged(entrySymbols)
  {
    hide TiedOnTop, TiesAreBridged, LosesNoSymbol, LosesNoLine, StandsAlone, KeyedExternals, ExactExternals,
      PlainReferences, SwallowedBy;
    var local, external := ResolveDependencies(target.name, file, allFiles);
    var entrySymbolsToPrint := [target] + local;
    entrySymbols := entrySymbolsToPrint;
    EntrySymbolsDistinct(target, file, local);
    EachEntryOnce(target, file, local);
    NoSymbolLostIffNoTie(entrySymbols);
    NoLineLostIffBridged(entrySymbols);
    printed := DropNested(entrySymbolsToPrint, entrySymbolsToPrint);
    DropNestedFilters(entrySymbols, entrySymbols);
    SubsequenceNoDup(printed, entrySymbols);
    FirstStaysFirst(printed, entrySymbols);
    forall s
      ensures s in printed <==> StandsAlone(entrySymbols, s)
    {
      KeptStandAlone(entrySymbols, s);
    }
  }
}
