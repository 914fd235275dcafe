/**
 * Emission of one TypeScript module per registered schema: the property
 * lines of a schema without recursive properties go into one `z.object`;
 * a schema with recursive properties is split into a base object of the
 * other properties, a hand-written type for the recursive ones, and an
 * `.extend` holding the recursive lines. The template text around these
 * fragments (comments, blank lines, the generated-by banner) is not modelled.
 */
module SchemaCode {
  import opened Wrappers
  import opened Strings
  import opened Seqs
  import opened Utils
  import opened Imports
  import opened PropCode
  import opened Resolver

  /** The fragments of a generated schema module. */
  datatype Body =
    | Flat(lines: seq<string>)
    | Split(base: seq<string>, types: seq<string>, extend: seq<string>)

  datatype SchemaFile = SchemaFile(imports: string, description: Option<string>, name: string, zodName: string, body: Body)

  predicate IsRec(s: Schema, p: string) {
    p in s.props && s.props[p].isRecursive
  }

  predicate IsPlain(s: Schema, p: string) {
    !IsRec(s, p)
  }

  /** `${property.zodPropCode},` */
  function LineOf(s: Schema, p: string): string {
    if p in s.props then s.props[p].zodPropCode + "," else ","
  }

  function KeyOf(s: Schema, p: string): ImportKey {
    if p in s.props then s.props[p].key else SchemaKey(s.name)
  }

  function Lines(s: Schema, ps: seq<string>): seq<string> {
    Map(p => LineOf(s, p), ps)
  }

  /** The recursive properties, in insertion order. */
  function RecNames(s: Schema): seq<string> {
    Filter(s.propOrder, p => IsRec(s, p))
  }

  /** The other properties, in insertion order. */
  function PlainNames(s: Schema): seq<string> {
    Filter(s.propOrder, p => IsPlain(s, p))
  }

  /** The emitted JSDoc description, present only for a non-empty description. */
  function Describe(description: string): (r: Option<string>)
    ensures r.Some? <==> description != ""
  {
    if description == "" then None else Some(description)
  }

  function ZImport(): ImportDef { ImportDef("z", "zod", None, false) }
  function ZodTypeImport(): ImportDef { ImportDef("ZodType", "zod", None, false) }

  /** The imports recorded against the schema itself: `z`, and `ZodType` for a split module. */
  function SchemaDefs(s: Schema): seq<ImportDef> {
    if s.hasRecursiveProp then [ZImport(), ZodTypeImport()] else [ZImport()]
  }

  /** The owners whose imports the module renders: the schema, then its properties in order. */
  function FileKeys(s: Schema): seq<ImportKey> {
    [SchemaKey(s.name)] + KeysOf(s, s.propOrder)
  }

  /** The owners of the properties `ps`. */
  function KeysOf(s: Schema, ps: seq<string>): (r: seq<ImportKey>)
    ensures |r| == |ps| && forall j :: 0 <= j < |ps| ==> r[j] == KeyOf(s, ps[j])
  {
    Map(p => KeyOf(s, p), ps)
  }

  /** `${toJsObjKey(name)}: ${typescriptPropCode(...)};` for one recursive property. */
  function TypeLine(s: Schema, p: string, importPrefix: string): (r: Result<Code>)
    ensures r.Ok? ==> p in s.props && StartsWith(r.value.text, ToJsObjKey(p) + ": ")
  {
    if p !in s.props then Err("Unhandled type")
    else
      var c :- TypescriptPropCode(p, s.props[p].propDef, importPrefix);
      Ok(Code(ToJsObjKey(p) + ": " + c.text + ";", c.imports))
  }

  /** The type lines of `ps` in order; the first failure aborts. */
  function TypeLines(s: Schema, ps: seq<string>, importPrefix: string): (r: Result<seq<Code>>)
    ensures r.Ok? ==> |r.value| == |ps|
  {
    if ps == [] then Ok([])
    else
      var cs :- TypeLines(s, ps[..|ps| - 1], importPrefix);
      var c :- TypeLine(s, ps[|ps| - 1], importPrefix);
      Ok(cs + [c])
  }

  /** The type lines a module is built with: those of the recursive properties of a split module, none otherwise. */
  function TypesOf(s: Schema, importPrefix: string): seq<Code> {
    if s.hasRecursiveProp && TypeLines(s, RecNames(s), importPrefix).Ok? then TypeLines(s, RecNames(s), importPrefix).value else []
  }

  function Texts(cs: seq<Code>): seq<string> {
    Map((c: Code) => c.text, cs)
  }

  /** `addImportBy` for each definition of `defs`, in order. */
  function Record(entries: map<ImportKey, seq<ImportDef>>, key: ImportKey, defs: seq<ImportDef>): map<ImportKey, seq<ImportDef>> {
    if defs == [] then entries
    else entries[key := (if key in entries then entries[key] else []) + defs]
  }

  /** The imports of the type lines, each recorded against its property. */
  function RecordAll(entries: map<ImportKey, seq<ImportDef>>, keys: seq<ImportKey>, cs: seq<Code>): map<ImportKey, seq<ImportDef>>
    requires |keys| == |cs|
  {
    if keys == [] then entries
    else Record(RecordAll(entries, keys[..|keys| - 1], cs[..|cs| - 1]), keys[|keys| - 1], cs[|cs| - 1].imports)
  }

  /** The module body: one object, or the base / types / extend split. */
  function BodyOf(s: Schema, types: seq<Code>): Body {
    if s.hasRecursiveProp then Split(Lines(s, PlainNames(s)), Texts(types), Lines(s, RecNames(s)))
    else Flat(Lines(s, s.propOrder))
  }

  /** `<outputPath>/schemas/<zodName>.ts` */
  function SchemaPath(outputPath: string, zodName: string): string {
    outputPath + "/schemas/" + zodName + ".ts"
  }

  /** The import entries after `buildSchemaCode`, when it succeeds. */
  function EntriesAfter(entries: map<ImportKey, seq<ImportDef>>, s: Schema, types: seq<Code>): map<ImportKey, seq<ImportDef>>
    requires |types| == |RecNames(s)|
  {
    var withSchema := Record(entries, SchemaKey(s.name), SchemaDefs(s));
    if s.hasRecursiveProp then RecordAll(withSchema, KeysOf(s, RecNames(s)), types) else withSchema
  }

  // ----- properties of the emitted fragments

  /** The base object and the extension split the property lines without loss or duplication. */
  lemma SplitPartition(s: Schema)
    ensures |PlainNames(s)| + |RecNames(s)| == |s.propOrder|
    ensures multiset(PlainNames(s)) + multiset(RecNames(s)) == multiset(s.propOrder)
    ensures forall p :: p in RecNames(s) <==> p in s.propOrder && p in s.props && s.props[p].isRecursive
    ensures forall p :: p in PlainNames(s) <==> p in s.propOrder && !(p in s.props && s.props[p].isRecursive)
  {
    FilterPartition(s.propOrder, p => IsPlain(s, p), p => IsRec(s, p));
  }

  /** A schema without recursive properties is emitted as one object holding every line in insertion order. */
  lemma FlatHoldsAll(s: Schema, types: seq<Code>)
    requires !s.hasRecursiveProp
    ensures BodyOf(s, types).Flat? && |BodyOf(s, types).lines| == |s.propOrder|
    ensures forall i :: 0 <= i < |s.propOrder| ==> BodyOf(s, types).lines[i] == LineOf(s, s.propOrder[i])
  {
  }

  /** In a valid registry no recursive property exists without the schema being split. */
  lemma NoRecursionFlat(s: Schema, gen: LineGen)
    requires PropsValid(s, gen) && !s.hasRecursiveProp
    ensures RecNames(s) == [] && PlainNames(s) == s.propOrder
  {
    FilterNone(s.propOrder, p => IsRec(s, p));
    FilterAll(s.propOrder, p => IsPlain(s, p));
  }

  /** Once the registry is complete, every emitted line is the generated Zod line of its property. */
  lemma CompleteLines(m: map<string, Schema>, n: string, importPrefix: string)
    requires RegistryValid(m, ZodLines(importPrefix)) && Pending(m, []) && n in m
    ensures var s := m[n];
      forall i :: 0 <= i < |s.propOrder| ==>
        var p := s.propOrder[i];
        p in s.props && ZodPropLine(p, s.props[p].propDef, importPrefix).Ok?
        && Lines(s, s.propOrder)[i] == ZodPropLine(p, s.props[p].propDef, importPrefix).value.text + ","
  {
    var s := m[n];
    forall i | 0 <= i < |s.propOrder|
      ensures var p := s.propOrder[i];
        p in s.props && ZodPropLine(p, s.props[p].propDef, importPrefix).Ok?
        && Lines(s, s.propOrder)[i] == ZodPropLine(p, s.props[p].propDef, importPrefix).value.text + ","
    {
      var p := s.propOrder[i];
      assert p in s.props;
      assert IsZodLine(ZodLines(importPrefix), p, s.props[p].propDef, s.props[p].zodPropCode);
    }
  }

  /** Distinct schema modules are written to distinct files. */
  lemma SchemaPathInjective(outputPath: string, a: string, b: string)
    requires SchemaPath(outputPath, a) == SchemaPath(outputPath, b)
    ensures a == b
  {
    var pa := SchemaPath(outputPath, a);
    var k := |outputPath + "/schemas/"|;
    assert pa[k..|pa| - 3] == a;
    assert SchemaPath(outputPath, b)[k..|pa| - 3] == b;
  }

  lemma SuffixInjective(a: string, b: string, suffix: string)
    requires a + suffix == b + suffix
    ensures a == b
  {
    assert (a + suffix)[..|a|] == a;
    assert (b + suffix)[..|b|] == b;
  }

  /** Two `addImportBy` calls on one key record both definitions in order. */
  lemma RecordTwice(entries: map<ImportKey, seq<ImportDef>>, key: ImportKey, x: ImportDef, y: ImportDef)
    ensures var e1 := entries[key := (if key in entries then entries[key] else []) + [x]];
      e1[key := e1[key] + [y]] == Record(entries, key, [x, y])
  {
    var g := if key in entries then entries[key] else [];
    assert g + [x] + [y] == g + [x, y];
  }

  /** A failing prefix makes the whole list fail. */
  lemma {:induction false} TypeLinesErr(s: Schema, ps: seq<string>, i: int, importPrefix: string)
    requires 0 <= i <= |ps| && TypeLines(s, ps[..i], importPrefix).Err?
    ensures TypeLines(s, ps, importPrefix) == TypeLines(s, ps[..i], importPrefix)
    decreases |ps| - i
  {
    if i < |ps| {
      assert ps[..i + 1][..i] == ps[..i];
      TypeLinesErr(s, ps, i + 1, importPrefix);
    } else {
      assert ps[..i] == ps;
    }
  }

  lemma TypeLinesNext(s: Schema, ps: seq<string>, i: int, importPrefix: string)
    requires 0 <= i < |ps| && TypeLines(s, ps[..i], importPrefix).Ok?
    ensures TypeLines(s, ps[..i + 1], importPrefix) ==
      match TypeLine(s, ps[i], importPrefix)
      case Ok(c) => Ok(TypeLines(s, ps[..i], importPrefix).value + [c])
      case Err(e) => Err(e)
  {
    assert ps[..i + 1][..i] == ps[..i];
  }

  /** `buildSchemaCode`: records the module's own imports, emits the fragments and renders the imports. */
  method BuildSchemaCode(ctx: Context, name: string) returns (r: Result<SchemaFile>)
    requires ctx.Valid() && name in ctx.schemasByName
    modifies ctx.imp
    ensures var s := ctx.schemasByName[name];
      r.Ok? <==> !s.hasRecursiveProp || TypeLines(s, RecNames(s), ctx.importPrefix).Ok?
    ensures var s := ctx.schemasByName[name];
      r.Ok? ==>
        var types := if s.hasRecursiveProp then TypeLines(s, RecNames(s), ctx.importPrefix).value else [];
        && |types| == |RecNames(s)|
        && ctx.imp.entries == EntriesAfter(old(ctx.imp.entries), s, types)
        && r.value.name == s.name && r.value.zodName == s.zodName
        && r.value.description == Describe(s.description)
        && r.value.body == BodyOf(s, types)
        && r.value.imports == Join(ImportLines(ctx.imp.Gather(FileKeys(s)), Some(SchemaModule(ctx.importPrefix, s.zodName))), "\n")
  {
    var s := ctx.schemasByName[name];
    ghost var start := ctx.imp.entries;
    RecordSchemaImports(ctx.imp, s);
    var types: seq<Code> := [];
    if !s.hasRecursiveProp {
      NoRecursionFlat(s, ZodLines(ctx.importPrefix));
    } else {
      var t := RecordTypeLines(ctx.imp, s, ctx.importPrefix);
      if t.Err? {
        return Err(t.error);
      }
      types := t.value;
    }
    var imports := ctx.imp.BuildImports(FileKeys(s), Some(SchemaModule(ctx.importPrefix, s.zodName)));
    r := Ok(SchemaFile(imports, Describe(s.description), s.name, s.zodName, BodyOf(s, types)));
  }

  /** `addImportBy(schema, "z", "zod")`, then `addImportBy(schema, "ZodType", "zod")` for a split module. */
  method RecordSchemaImports(imp: ImportsBy<ImportKey>, s: Schema)
    modifies imp
    ensures imp.entries == Record(old(imp.entries), SchemaKey(s.name), SchemaDefs(s))
  {
    RecordTwice(imp.entries, SchemaKey(s.name), ZImport(), ZodTypeImport());
    var _ := imp.AddImportBy(SchemaKey(s.name), "z", "zod", false, None);
    if s.hasRecursiveProp {
      var _ := imp.AddImportBy(SchemaKey(s.name), "ZodType", "zod", false, None);
    }
  }

  /** The type lines of the recursive properties, recording each one's imports against its property. */
  method RecordTypeLines(imp: ImportsBy<ImportKey>, s: Schema, importPrefix: string) returns (r: Result<seq<Code>>)
    modifies imp
    ensures r == TypeLines(s, RecNames(s), importPrefix)
    ensures r.Ok? ==> imp.entries == RecordAll(old(imp.entries), KeysOf(s, RecNames(s)), r.value)
  {
    var recs := RecNames(s);
    var types: seq<Code> := [];
    var i := 0;
    ghost var e0 := imp.entries;
    while i < |recs|
      invariant 0 <= i <= |recs|
      invariant TypeLines(s, recs[..i], importPrefix) == Ok(types)
      invariant imp.entries == RecordAll(e0, KeysOf(s, recs[..i]), types)
    {
      var next := RecordTypeLine(imp, s, recs, i, importPrefix, e0, types);
      if next.Err? {
        return next;
      }
      types := next.value;
      i := i + 1;
    }
    assert recs[..i] == recs;
    r := Ok(types);
  }

  lemma RecordAllNext(e0: map<ImportKey, seq<ImportDef>>, s: Schema, ps: seq<string>, i: int, types: seq<Code>, c: Code)
    requires 0 <= i < |ps| && |types| == i
    ensures RecordAll(e0, KeysOf(s, ps[..i + 1]), types + [c])
      == Record(RecordAll(e0, KeysOf(s, ps[..i]), types), KeyOf(s, ps[i]), c.imports)
  {
    assert KeysOf(s, ps[..i + 1])[..i] == KeysOf(s, ps[..i]);
    assert (types + [c])[..i] == types;
  }

  /** One turn of the loop of `buildSchemaCode` over the recursive properties `ps`. */
  method RecordTypeLine(imp: ImportsBy<ImportKey>, s: Schema, ps: seq<string>, i: nat, importPrefix: string,
                        ghost e0: map<ImportKey, seq<ImportDef>>, types: seq<Code>) returns (r: Result<seq<Code>>)
    requires i < |ps|
    requires TypeLines(s, ps[..i], importPrefix) == Ok(types)
    requires imp.entries == RecordAll(e0, KeysOf(s, ps[..i]), types)
    modifies imp
    ensures r.Ok? ==> TypeLines(s, ps[..i + 1], importPrefix) == r
    ensures r.Ok? ==> imp.entries == RecordAll(e0, KeysOf(s, ps[..i + 1]), r.value)
    ensures r.Err? ==> r == TypeLines(s, ps, importPrefix)
  {
    TypeLinesNext(s, ps, i, importPrefix);
    var c := TypeLine(s, ps[i], importPrefix);
    if c.Err? {
      TypeLinesErr(s, ps, i + 1, importPrefix);
      return Err(c.error);
    }
    imp.AddAll(KeyOf(s, ps[i]), c.value.imports);
    RecordAllNext(e0, s, ps, i, types, c.value);
    r := Ok(types + [c.value]);
  }

  /** The output paths of the modules of `names`. */
  function Paths(outputPath: string, names: seq<string>): set<string> {
    set n | n in names :: SchemaPath(outputPath, n + "Schema")
  }

  lemma PathsNext(outputPath: string, names: seq<string>, i: int)
    requires 0 <= i < |names|
    ensures Paths(outputPath, names[..i + 1]) == Paths(outputPath, names[..i]) + {SchemaPath(outputPath, names[i] + "Schema")}
  {
    assert names[..i + 1] == names[..i] + [names[i]];
  }

  /** `buildSchemasCode`: one module per registered schema, keyed by its output path. */
  method BuildSchemasCode(ctx: Context) returns (r: Result<map<string, SchemaFile>>)
    requires ctx.Valid()
    modifies ctx.imp
    ensures r.Ok? ==> r.value.Keys == set n | n in ctx.schemasByName :: SchemaPath(ctx.outputPath, n + "Schema")
    ensures r.Ok? ==> forall n :: n in ctx.schemasByName ==> Built(ctx.schemasByName, ctx.outputPath, ctx.importPrefix, r.value, n)
  {
    var m := ctx.schemasByName;
    var out := ctx.outputPath;
    var order := ctx.schemaOrder;
    var files: map<string, SchemaFile> := map[];
    var i := 0;
    while i < |order|
      invariant 0 <= i <= |order|
      invariant ctx.schemasByName == m && ctx.Valid()
      invariant files.Keys == Paths(out, order[..i])
      invariant forall j :: 0 <= j < i ==> Built(m, out, ctx.importPrefix, files, order[j])
    {
      var next := AddSchemaFile(ctx, m, out, order, i, files);
      if next.Err? {
        return Err(next.error);
      }
      files := next.value;
      i := i + 1;
    }
    assert order[..i] == order;
    r := Ok(files);
    forall n | n in m ensures Built(m, out, ctx.importPrefix, files, n) {
      var j :| 0 <= j < |order| && order[j] == n;
    }
  }

  /** `buildSchemaCode` of one registered schema, stated in terms of the module its registry entry gives. */
  method BuildSchemaFile(ctx: Context, name: string) returns (r: Result<SchemaFile>)
    requires ctx.Valid() && name in ctx.schemasByName
    modifies ctx.imp
    ensures var s := ctx.schemasByName[name];
      r.Ok? <==> !s.hasRecursiveProp || TypeLines(s, RecNames(s), ctx.importPrefix).Ok?
    ensures r.Ok? ==> var s := ctx.schemasByName[name];
      && ModuleOf(r.value, s, ctx.importPrefix)
      && |TypesOf(s, ctx.importPrefix)| == |RecNames(s)|
      && ctx.imp.entries == EntriesAfter(old(ctx.imp.entries), s, TypesOf(s, ctx.importPrefix))
      && r.value.imports == Join(ImportLines(ctx.imp.Gather(FileKeys(s)), Some(SchemaModule(ctx.importPrefix, s.zodName))), "\n")
  {
    assert SchemaValid(name, ctx.schemasByName[name], ZodLines(ctx.importPrefix));
    r := BuildSchemaCode(ctx, name);
  }

  /** One turn of the loop of `buildSchemasCode`: the module of the `i`-th registered schema joins `files`. */
  method AddSchemaFile(ctx: Context, m: map<string, Schema>, out: string, order: seq<string>, i: nat,
                       files: map<string, SchemaFile>) returns (r: Result<map<string, SchemaFile>>)
    requires ctx.Valid() && ctx.schemasByName == m && ctx.outputPath == out && ctx.schemaOrder == order && i < |order|
    requires files.Keys == Paths(out, order[..i])
    requires forall j :: 0 <= j < i ==> Built(m, out, ctx.importPrefix, files, order[j])
    modifies ctx.imp
    ensures ctx.Valid()
    ensures r.Ok? ==> r.value.Keys == Paths(out, order[..i + 1])
    ensures r.Ok? ==> forall j :: 0 <= j < i + 1 ==> Built(m, out, ctx.importPrefix, r.value, order[j])
    ensures r.Ok? ==> var s := m[order[i]];
      && |TypesOf(s, ctx.importPrefix)| == |RecNames(s)|
      && ctx.imp.entries == EntriesAfter(old(ctx.imp.entries), s, TypesOf(s, ctx.importPrefix))
      && r.value[SchemaPath(out, order[i] + "Schema")].imports
         == Join(ImportLines(ctx.imp.Gather(FileKeys(s)), Some(SchemaModule(ctx.importPrefix, s.zodName))), "\n")
  {
    var n := order[i];
    assert n in m && forall j, k :: 0 <= j < k < |order| ==> order[j] != order[k];
    var f := BuildSchemaFile(ctx, n);
    if f.Err? {
      return Err(f.error);
    }
    var after := files[SchemaPath(out, n + "Schema") := f.value];
    FilesNext(m, out, ctx.importPrefix, files, order, i, f.value);
    r := Ok(after);
  }

  /** Adding the module of the `i`-th schema extends the paths and keeps the modules already built. */
  lemma FilesNext(m: map<string, Schema>, outputPath: string, importPrefix: string, files: map<string, SchemaFile>,
                  order: seq<string>, i: int, f: SchemaFile)
    requires 0 <= i < |order| && order[i] in m
    requires forall j, k :: 0 <= j < k < |order| ==> order[j] != order[k]
    requires files.Keys == Paths(outputPath, order[..i])
    requires forall j :: 0 <= j < i ==> Built(m, outputPath, importPrefix, files, order[j])
    requires ModuleOf(f, m[order[i]], importPrefix)
    ensures var after := files[SchemaPath(outputPath, order[i] + "Schema") := f];
      && after.Keys == Paths(outputPath, order[..i + 1])
      && forall j :: 0 <= j < i + 1 ==> Built(m, outputPath, importPrefix, after, order[j])
  {
    var after := files[SchemaPath(outputPath, order[i] + "Schema") := f];
    assert after.Keys == files.Keys + {SchemaPath(outputPath, order[i] + "Schema")};
    PathsNext(outputPath, order, i);
    BuiltKept(m, outputPath, importPrefix, files, after, order, i, f);
  }

  /** The module the registry entry `s` gives: its names, its description and the body of its lines. */
  predicate ModuleOf(f: SchemaFile, s: Schema, importPrefix: string) {
    && f.name == s.name && f.zodName == s.zodName
    && f.description == Describe(s.description)
    && f.body == BodyOf(s, TypesOf(s, importPrefix))
  }

  /** The module of `n` is in `files` under its output path and is built from its registry entry. */
  ghost predicate Built(m: map<string, Schema>, outputPath: string, importPrefix: string, files: map<string, SchemaFile>, n: string) {
    && n in m
    && SchemaPath(outputPath, n + "Schema") in files
    && ModuleOf(files[SchemaPath(outputPath, n + "Schema")], m[n], importPrefix)
  }

  lemma BuiltKept(m: map<string, Schema>, outputPath: string, importPrefix: string,
                  before: map<string, SchemaFile>, after: map<string, SchemaFile>,
                  order: seq<string>, i: int, f: SchemaFile)
    requires 0 <= i < |order| && order[i] in m
    requires forall j, k :: 0 <= j < k < |order| ==> order[j] != order[k]
    requires forall j :: 0 <= j < i ==> Built(m, outputPath, importPrefix, before, order[j])
    requires after == before[SchemaPath(outputPath, order[i] + "Schema") := f]
    requires ModuleOf(f, m[order[i]], importPrefix)
    ensures forall j :: 0 <= j <= i ==> Built(m, outputPath, importPrefix, after, order[j])
  {
    forall j | 0 <= j < i ensures Built(m, outputPath, importPrefix, after, order[j]) {
      if SchemaPath(outputPath, order[j] + "Schema") == SchemaPath(outputPath, order[i] + "Schema") {
        SchemaPathInjective(outputPath, order[j] + "Schema", order[i] + "Schema");
        SuffixInjective(order[j], order[i], "Schema");
      }
    }
  }
}
