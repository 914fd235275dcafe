/**
 * The import collector: every generated artifact records the imports it needs
 * against an owner key, and rendering gathers the imports of several owners
 * into `import ... from "...";` lines, one per module path.
 */
module Imports {
  import opened Wrappers
  import opened Strings
  import opened Seqs
  import opened Sorting

  datatype ImportDef = ImportDef(symbol: string, path: string, alias: Option<string>, isDefault: bool)

  /** The slot a definition takes in its path's imports: every default import shares one. */
  function SlotOf(d: ImportDef): string {
    if d.isDefault then "_default" else d.symbol
  }

  /** The imports of one path: slots in first-insertion order and the definition kept in each. */
  datatype PathImports = PathImports(order: seq<string>, slots: map<string, ImportDef>)

  ghost predicate PathImportsValid(pi: PathImports) {
    && (forall s :: s in pi.order <==> s in pi.slots)
    && (forall s :: s in pi.slots ==> SlotOf(pi.slots[s]) == s)
  }

  function AddDef(pi: PathImports, d: ImportDef): PathImports {
    var s := SlotOf(d);
    PathImports(if s in pi.slots then pi.order else pi.order + [s], pi.slots[s := d])
  }

  const NoImports := PathImports([], map[])

  /** The paths of `defs`, each once, in order of first appearance. */
  function PathOrder(defs: seq<ImportDef>): seq<string>
  {
    if defs == [] then []
    else
      var order := PathOrder(defs[..|defs| - 1]);
      var p := defs[|defs| - 1].path;
      if p in order then order else order + [p]
  }

  /** `importsByPath` after the loop over `defs`. */
  function ByPath(defs: seq<ImportDef>): map<string, PathImports>
  {
    if defs == [] then map[]
    else
      var m := ByPath(defs[..|defs| - 1]);
      var d := defs[|defs| - 1];
      m[d.path := AddDef(if d.path in m then m[d.path] else NoImports, d)]
  }

  /** The last definition in `defs` for `path` that takes `slot`. */
  function LastIn(defs: seq<ImportDef>, path: string, slot: string): Option<ImportDef>
  {
    if defs == [] then None
    else
      var d := defs[|defs| - 1];
      if d.path == path && SlotOf(d) == slot then Some(d) else LastIn(defs[..|defs| - 1], path, slot)
  }

  ghost function PathsOf(defs: seq<ImportDef>): set<string> {
    set d | d in defs :: d.path
  }

  ghost predicate NoDup<T(!new)>(s: seq<T>) {
    forall x :: multiset(s)[x] <= 1
  }

  lemma {:induction false} PathOrderSpec(defs: seq<ImportDef>)
    ensures NoDup(PathOrder(defs))
    ensures forall p :: p in PathOrder(defs) <==> p in PathsOf(defs)
    ensures forall p :: p in ByPath(defs) <==> p in PathsOf(defs)
  {
    if defs != [] {
      var init := defs[..|defs| - 1];
      PathOrderSpec(init);
      assert defs == init + [defs[|defs| - 1]];
      assert PathsOf(defs) == PathsOf(init) + {defs[|defs| - 1].path};
    }
  }

  /**
   * Within a path a later definition replaces an earlier one in the same slot,
   * so each slot holds the last definition that took it.
   */
  lemma {:induction false} LastWins(defs: seq<ImportDef>, path: string, slot: string)
    ensures (path in ByPath(defs) && slot in ByPath(defs)[path].slots) <==> LastIn(defs, path, slot).Some?
    ensures LastIn(defs, path, slot).Some? ==> ByPath(defs)[path].slots[slot] == LastIn(defs, path, slot).value
    ensures path in ByPath(defs) ==> PathImportsValid(ByPath(defs)[path])
  {
    if defs != [] {
      LastWins(defs[..|defs| - 1], path, slot);
      var d := defs[|defs| - 1];
      var m := ByPath(defs[..|defs| - 1]);
      if path in m {
        forall s ensures (s in m[path].order <==> s in m[path].slots) && (s in m[path].slots ==> SlotOf(m[path].slots[s]) == s) {
          LastWins(defs[..|defs| - 1], path, s);
        }
      }
      if d.path == path {
        var cur := if path in m then m[path] else NoImports;
        assert PathImportsValid(cur);
      }
    }
  }

  // ----- rendering

  function WithAlias(d: ImportDef): string {
    d.symbol + (if d.alias.Some? && d.alias.value != "" then " as " + d.alias.value else "")
  }

  function Spaced(d: ImportDef): string {
    " " + WithAlias(d)
  }

  predicate SymbolLe(a: ImportDef, b: ImportDef) {
    StrLe(a.symbol, b.symbol)
  }

  /** The sort key of a path: one leading `~` is ignored. */
  function SortKey(path: string): string {
    if |path| > 0 && path[0] == '~' then path[1..] else path
  }

  predicate PathLe(a: string, b: string) {
    StrLe(SortKey(a), SortKey(b))
  }

  /** The definitions of the non-default slots, in slot order. */
  function Others(order: seq<string>, slots: map<string, ImportDef>): seq<ImportDef>
  {
    if order == [] then []
    else (if order[0] != "_default" && order[0] in slots then [slots[order[0]]] else []) + Others(order[1..], slots)
  }

  function NamedImports(pi: PathImports): seq<ImportDef> {
    SortBy(Others(pi.order, pi.slots), SymbolLe)
  }

  function ImportParts(pi: PathImports): seq<string> {
    var named := NamedImports(pi);
    (if "_default" in pi.slots then [WithAlias(pi.slots["_default"])] else [])
      + (if |named| > 0 then ["{" + Join(Map(Spaced, named), ",") + " }"] else [])
  }

  function ImportLine(path: string, pi: PathImports): string {
    "import " + Join(ImportParts(pi), ", ") + " from " + Quote(path) + ";"
  }

  function NotExcluded(excludePath: Option<string>): string -> bool {
    p => excludePath != Some(p)
  }

  /** The lines `render` gives for the paths `ps`, skipping the excluded one. */
  function LinesFor(ps: seq<string>, byPath: map<string, PathImports>, excludePath: Option<string>,
                    render: (string, PathImports) -> string): seq<string>
    requires forall p :: p in ps ==> p in byPath
  {
    if ps == [] then []
    else
      var here := if excludePath == Some(ps[0]) then [] else [render(ps[0], byPath[ps[0]])];
      here + LinesFor(ps[1..], byPath, excludePath, render)
  }

  /** The paths that get a line, in output order. */
  function LinePaths(defs: seq<ImportDef>, excludePath: Option<string>): seq<string> {
    Filter(SortBy(PathOrder(defs), PathLe), NotExcluded(excludePath))
  }

  /** The lines `buildImports` renders for `defs`. */
  function ImportLines(defs: seq<ImportDef>, excludePath: Option<string>): seq<string> {
    PathOrderSpec(defs);
    var sorted := SortBy(PathOrder(defs), PathLe);
    assert forall p :: p in sorted ==> p in PathOrder(defs) by {
      forall p | p in sorted ensures p in PathOrder(defs) {
        assert p in multiset(sorted);
      }
    }
    LinesFor(sorted, ByPath(defs), excludePath, ImportLine)
  }

  lemma SymbolLePreorder()
    ensures TotalPreorder(SymbolLe)
  {
    forall a: ImportDef, b: ImportDef ensures SymbolLe(a, b) || SymbolLe(b, a) {
      StrLeTotal(a.symbol, b.symbol);
    }
    forall a: ImportDef, b: ImportDef, c: ImportDef | SymbolLe(a, b) && SymbolLe(b, c) ensures SymbolLe(a, c) {
      StrLeTransitive(a.symbol, b.symbol, c.symbol);
    }
  }

  lemma PathLePreorder()
    ensures TotalPreorder(PathLe)
  {
    forall a: string, b: string ensures PathLe(a, b) || PathLe(b, a) {
      StrLeTotal(SortKey(a), SortKey(b));
    }
    forall a: string, b: string, c: string | PathLe(a, b) && PathLe(b, c) ensures PathLe(a, c) {
      StrLeTransitive(SortKey(a), SortKey(b), SortKey(c));
    }
  }

  lemma {:induction false} FilterSorted<T(!new)>(s: seq<T>, p: T -> bool, leq: (T, T) -> bool)
    requires Sorted(s, leq)
    ensures Sorted(Filter(s, p), leq)
  {
    if s != [] {
      FilterSorted(s[1..], p, leq);
      var f := Filter(s[1..], p);
      forall j | 0 <= j < |f| ensures leq(s[0], f[j]) {
        assert f[j] in f;
        var m :| 0 <= m < |s[1..]| && s[1..][m] == f[j];
        assert s[1 + m] == f[j];
      }
    }
  }

  lemma {:induction false} FilterMultiset<T>(s: seq<T>, p: T -> bool)
    ensures multiset(Filter(s, p)) <= multiset(s)
  {
    if s != [] {
      FilterMultiset(s[1..], p);
      assert s == [s[0]] + s[1..];
    }
  }

  /**
   * There is one line per distinct path of the gathered imports, except the
   * excluded one: the paths are distinct, ordered by their sort key, and
   * exactly the gathered paths.
   */
  lemma LinePathsSpec(defs: seq<ImportDef>, excludePath: Option<string>)
    ensures Sorted(LinePaths(defs, excludePath), PathLe)
    ensures NoDup(LinePaths(defs, excludePath))
    ensures forall p :: p in LinePaths(defs, excludePath) <==> p in PathsOf(defs) && excludePath != Some(p)
  {
    PathOrderSpec(defs);
    PathLePreorder();
    var sorted := SortBy(PathOrder(defs), PathLe);
    SortBySorted(PathOrder(defs), PathLe);
    FilterSorted(sorted, NotExcluded(excludePath), PathLe);
    FilterMultiset(sorted, NotExcluded(excludePath));
    forall p ensures p in LinePaths(defs, excludePath) <==> p in PathsOf(defs) && excludePath != Some(p) {
      assert p in sorted <==> p in multiset(sorted);
      assert p in PathOrder(defs) <==> p in multiset(PathOrder(defs));
    }
  }

  /** Line `i` is the line of the `i`-th path that gets one. */
  lemma {:induction false} LinesForSpec(ps: seq<string>, byPath: map<string, PathImports>, excludePath: Option<string>,
                                        render: (string, PathImports) -> string)
    requires forall p :: p in ps ==> p in byPath
    ensures |LinesFor(ps, byPath, excludePath, render)| == |Filter(ps, NotExcluded(excludePath))|
    ensures forall i :: 0 <= i < |LinesFor(ps, byPath, excludePath, render)| ==>
      Filter(ps, NotExcluded(excludePath))[i] in byPath &&
      LinesFor(ps, byPath, excludePath, render)[i]
        == render(Filter(ps, NotExcluded(excludePath))[i], byPath[Filter(ps, NotExcluded(excludePath))[i]])
  {
    if ps != [] {
      var keep := NotExcluded(excludePath);
      var rest := ps[1..];
      LinesForSpec(rest, byPath, excludePath, render);
      var lines := LinesFor(ps, byPath, excludePath, render);
      var restLines := LinesFor(rest, byPath, excludePath, render);
      var f := Filter(ps, keep);
      var fr := Filter(rest, keep);
      if excludePath == Some(ps[0]) {
        assert f == fr;
        assert lines == restLines;
      } else {
        assert f == [ps[0]] + fr;
        assert lines == [render(ps[0], byPath[ps[0]])] + restLines;
        forall i | 1 <= i < |lines|
          ensures f[i] in byPath && lines[i] == render(f[i], byPath[f[i]])
        {
          assert lines[i] == restLines[i - 1] && f[i] == fr[i - 1];
        }
      }
    }
  }

  /** The `i`-th import line is the line of the `i`-th path of `LinePaths`. */
  lemma ImportLinesSpec(defs: seq<ImportDef>, excludePath: Option<string>)
    ensures |ImportLines(defs, excludePath)| == |LinePaths(defs, excludePath)|
    ensures forall i :: 0 <= i < |ImportLines(defs, excludePath)| ==>
      LinePaths(defs, excludePath)[i] in ByPath(defs) &&
      ImportLines(defs, excludePath)[i] == ImportLine(LinePaths(defs, excludePath)[i], ByPath(defs)[LinePaths(defs, excludePath)[i]])
  {
    PathOrderSpec(defs);
    var sorted := SortBy(PathOrder(defs), PathLe);
    assert forall p :: p in sorted ==> p in ByPath(defs) by {
      forall p | p in sorted ensures p in ByPath(defs) {
        assert p in multiset(sorted);
      }
    }
    LinesForSpec(sorted, ByPath(defs), excludePath, ImportLine);
  }

  /** Within a line, the named imports are ordered by symbol and are the non-default slots. */
  lemma NamedImportsSpec(pi: PathImports)
    ensures Sorted(NamedImports(pi), SymbolLe)
    ensures multiset(NamedImports(pi)) == multiset(Others(pi.order, pi.slots))
  {
    SymbolLePreorder();
    SortBySorted(Others(pi.order, pi.slots), SymbolLe);
  }

  /** The default import, when there is one, comes first on its line. */
  lemma DefaultFirst(path: string, pi: PathImports)
    requires "_default" in pi.slots
    ensures StartsWith(ImportLine(path, pi), "import " + WithAlias(pi.slots["_default"]))
  {
    DefaultPartFirst(pi);
    JoinStartsWithHead(ImportParts(pi), ", ");
    StartsWithInside("import ", Join(ImportParts(pi), ", "), " from " + Quote(path) + ";", WithAlias(pi.slots["_default"]));
  }

  lemma DefaultPartFirst(pi: PathImports)
    requires "_default" in pi.slots
    ensures |ImportParts(pi)| >= 1 && ImportParts(pi)[0] == WithAlias(pi.slots["_default"])
  {
  }

  /** A prefix of the middle of a concatenation extends its head. */
  lemma StartsWithInside(a: string, b: string, c: string, d: string)
    requires StartsWith(b, d)
    ensures StartsWith(a + b + c, a + d)
  {
    assert (a + b + c)[..|a + d|] == a + b[..|d|];
  }

  /** A join starts with its first part. */
  lemma JoinStartsWithHead(parts: seq<string>, sep: string)
    requires |parts| >= 1
    ensures StartsWith(Join(parts, sep), parts[0])
  {
    if |parts| > 1 {
      var joined := Join(parts, sep);
      assert joined == parts[0] + sep + Join(parts[1..], sep);
      assert joined[..|parts[0]|] == parts[0];
    }
  }

  /** The import registry: a list of import definitions per owner key. */
  class ImportsBy<K(==)> {
    var entries: map<K, seq<ImportDef>>

    constructor ()
      ensures entries == map[]
    {
      entries := map[];
    }

    /** `importsBy.get(key) ?? []` */
    function Get(key: K): seq<ImportDef>
      reads this
    {
      if key in entries then entries[key] else []
    }

    /** `addImportBy`: appends one definition to the key's list; returns `""` for use in templates. */
    method AddImportBy(key: K, symbol: string, path: string, isDefault: bool, alias: Option<string>)
      returns (r: string)
      modifies this
      ensures entries == old(entries)[key := old(Get(key)) + [ImportDef(symbol, path, alias, isDefault)]]
      ensures r == ""
    {
      entries := entries[key := Get(key) + [ImportDef(symbol, path, alias, isDefault)]];
      r := "";
    }

    /** Records a list of definitions in order, as repeated `addImportBy` calls do. */
    method AddAll(key: K, defs: seq<ImportDef>)
      modifies this
      ensures entries == if defs == [] then old(entries) else old(entries)[key := old(Get(key)) + defs]
    {
      ghost var e0, g0 := entries, Get(key);
      var i := 0;
      while i < |defs|
        invariant 0 <= i <= |defs|
        invariant entries == if i == 0 then e0 else e0[key := g0 + defs[..i]]
      {
        var d := defs[i];
        assert Get(key) == g0 + defs[..i];
        var _ := AddImportBy(key, d.symbol, d.path, d.isDefault, d.alias);
        assert g0 + defs[..i + 1] == g0 + defs[..i] + [d];
        i := i + 1;
      }
      assert defs[..|defs|] == defs;
    }

    /** `keys.map((key) => importsBy.get(key) ?? []).flat()` */
    function Gather(keys: seq<K>): (r: seq<ImportDef>)
      reads this
      ensures forall k :: k in keys ==> multiset(Get(k)) <= multiset(r)
    {
      if keys == [] then [] else Get(keys[0]) + Gather(keys[1..])
    }

    /** `buildImports`: the import lines of the gathered definitions, joined by newlines. */
    method BuildImports(keys: seq<K>, excludePath: Option<string>) returns (code: string)
      ensures code == Join(ImportLines(Gather(keys), excludePath), "\n")
    {
      var defs := Gather(keys);
      var byPath, paths := GroupByPath(defs);
      var sorted := SortBy(paths, PathLe);
      assert forall p :: p in sorted ==> p in byPath by {
        PathOrderSpec(defs);
        forall p | p in sorted ensures p in byPath {
          assert p in multiset(sorted);
        }
      }
      var lines := RenderLines(sorted, byPath, excludePath, ImportLine);
      code := Join(lines, "\n");
    }
  }

  /** The loop of `buildImports` that groups the definitions by path, slot by slot. */
  method GroupByPath(defs: seq<ImportDef>) returns (byPath: map<string, PathImports>, paths: seq<string>)
    ensures byPath == ByPath(defs) && paths == PathOrder(defs)
  {
    byPath := map[];
    paths := [];
    var i := 0;
    while i < |defs|
      invariant 0 <= i <= |defs|
      invariant byPath == ByPath(defs[..i]) && paths == PathOrder(defs[..i])
    {
      PathOrderSpec(defs[..i]);
      var d := defs[i];
      assert defs[..i + 1][..i] == defs[..i];
      if d.path !in byPath {
        paths := paths + [d.path];
      }
      byPath := byPath[d.path := AddDef(if d.path in byPath then byPath[d.path] else NoImports, d)];
      i := i + 1;
    }
    assert defs[..i] == defs;
  }

  /** The loop of `buildImports` over the sorted paths that renders one line per path. */
  method RenderLines(sorted: seq<string>, byPath: map<string, PathImports>, excludePath: Option<string>,
                     render: (string, PathImports) -> string)
    returns (lines: seq<string>)
    requires forall p :: p in sorted ==> p in byPath
    ensures lines == LinesFor(sorted, byPath, excludePath, render)
  {
    lines := [];
    var j := 0;
    while j < |sorted|
      invariant 0 <= j <= |sorted|
      invariant lines + LinesFor(sorted[j..], byPath, excludePath, render) == LinesFor(sorted, byPath, excludePath, render)
    {
      var p := sorted[j];
      assert sorted[j..][1..] == sorted[j + 1..];
      ghost var rest := LinesFor(sorted[j + 1..], byPath, excludePath, render);
      if excludePath != Some(p) {
        assert LinesFor(sorted[j..], byPath, excludePath, render) == [render(p, byPath[p])] + rest;
        assert lines + [render(p, byPath[p])] + rest == lines + ([render(p, byPath[p])] + rest);
        lines := lines + [render(p, byPath[p])];
      } else {
        assert LinesFor(sorted[j..], byPath, excludePath, render) == rest;
      }
      j := j + 1;
    }
    assert lines + LinesFor(sorted[j..], byPath, excludePath, render) == lines;
  }
}
