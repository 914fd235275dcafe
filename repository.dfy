/**
 * Repository generation (`repository.ts`): the path template of an endpoint,
 * the query key, the hook body for each of the five hook types, the hook
 * declaration with its arguments and `options` type, the commenting-out of
 * endpoints that cannot be generated, and the grouping of operations into
 * one repository file per entity.
 */
module Repository {
  import opened Wrappers
  import opened Strings
  import opened Seqs
  import opened Utils
  import opened Imports
  import opened PropCode
  import opened Resolver
  import opened Operations

  // ----- buildPath

  /** A match of `/\{(\w+)\}/` at the start of `s`: the name and the length of the match. */
  function PlaceholderAt(s: string): (r: Option<(string, nat)>)
    ensures r.Some? ==> 2 < r.value.1 <= |s|
  {
    if |s| == 0 || s[0] != '{' then None
    else
      var k := WordRun(s[1..]);
      if k > 0 && 1 + k < |s| && s[1 + k] == '}' then Some((s[1..1 + k], k + 2)) else None
  }

  /** `path.replaceAll(/\{(\w+)\}/g, (_, m) => "${" + toJsIdentifier(m) + "}")` */
  function TemplatePath(s: string, inf: Inflector): string
    decreases |s|
  {
    if s == [] then []
    else
      match PlaceholderAt(s)
      case Some((m, n)) => "${" + ToJsIdentifier(m, inf) + "}" + TemplatePath(s[n..], inf)
      case None => [s[0]] + TemplatePath(s[1..], inf)
  }

  /** A path without placeholders is copied into the template as it is. */
  lemma {:induction false} TemplatePathNoParam(s: string, inf: Inflector)
    requires '{' !in s
    ensures TemplatePath(s, inf) == s
    decreases |s|
  {
    if s != [] {
      assert PlaceholderAt(s).None?;
      TemplatePathNoParam(s[1..], inf);
    }
  }

  lemma {:induction false} WordRunOf(a: string, b: string)
    requires AllWord(a)
    requires |b| > 0 && !IsWordChar(b[0])
    ensures WordRun(a + b) == |a|
  {
    if a != [] {
      assert (a + b)[1..] == a[1..] + b;
      WordRunOf(a[1..], b);
    } else {
      assert a + b == b;
    }
  }

  /**
   * A `{name}` placeholder becomes an interpolation of the argument the
   * analysis named after the same parameter (`tsName`).
   */
  lemma PlaceholderBindsArgument(p: Parameter, rest: string, inf: Inflector)
    requires IsWord(p.name) && p.tsName == ToJsIdentifier(p.name, inf)
    ensures TemplatePath("{" + p.name + "}" + rest, inf) == "${" + p.tsName + "}" + TemplatePath(rest, inf)
    ensures p.tsName == p.name
  {
    var s := "{" + p.name + "}" + rest;
    assert s[1..] == p.name + ("}" + rest);
    WordRunOf(p.name, "}" + rest);
    assert s[1..1 + |p.name|] == p.name;
    assert s[|p.name| + 2..] == rest;
    assert PlaceholderAt(s) == Some((p.name, |p.name| + 2));
    ToJsIdentifierOfWord(p.name, inf);
  }

  predicate IsQueryParam(p: Parameter) {
    p.location == InQuery
  }

  /** `/^[a-z]\w*$/i` */
  predicate IsSimpleName(name: string) {
    |name| > 0 && IsLetter(name[0]) && AllWord(name[1..])
  }

  /** The key literal of a query parameter as written: `JSON.stringify(toJsObjKey(name))`. */
  function QueryKeyLiteralAsWritten(name: string): string {
    Quote(ToJsObjKey(name))
  }

  /** The key literal as intended: the parameter name as a string literal. */
  function QueryKeyLiteral(name: string): string {
    Quote(name)
  }

  /** The key literal denotes the parameter's own name. */
  lemma QueryKeyLiteralDenotesName(name: string)
    ensures Unquote(QueryKeyLiteral(name)) == Some(name)
  {
    QuoteRoundTrip(name);
  }

  /** As written, a name that does not start with a letter is quoted twice: the key carries the quotes. */
  lemma QueryKeyLiteralAsWrittenQuotesTwice(name: string)
    requires !(|name| > 0 && IsLetter(name[0]))
    ensures Unquote(QueryKeyLiteralAsWritten(name)) == Some(Quote(name))
    ensures Quote(name) != name
  {
    QuoteRoundTrip(Quote(name));
  }

  /** For names that start with a letter, the code as written already writes the intended key. */
  lemma QueryKeyLiteralAsWrittenOnLetters(name: string)
    requires |name| > 0 && IsLetter(name[0])
    ensures QueryKeyLiteralAsWritten(name) == QueryKeyLiteral(name)
  {
  }

  /** One entry of the `serializeSearchParams({...})` object: shorthand for simple names. */
  function QueryEntry(p: Parameter): string {
    " " + (if IsSimpleName(p.name) then p.name else QueryKeyLiteral(p.name) + ": " + p.tsName)
  }

  function ClientImport(symbol: string, importPrefix: string): ImportDef {
    ImportDef(symbol, importPrefix + "/client", None, false)
  }

  const ReactQuery := "@tanstack/react-query"

  function QueryImport(symbol: string): ImportDef {
    ImportDef(symbol, ReactQuery, None, false)
  }

  /** `buildPath`: a template literal; the query string is serialised only when there are query parameters. */
  function BuildPath(path: string, params: seq<Parameter>, importPrefix: string, inf: Inflector): (r: Code)
    ensures StartsWith(r.text, "`" + TemplatePath(path, inf)) && EndsWith(r.text, "`")
    ensures r.imports == [] <==> Filter(params, IsQueryParam) == []
    ensures r.imports != [] ==> r.imports == [ClientImport("serializeSearchParams", importPrefix)]
    ensures r.imports == [] ==> r.text == "`" + TemplatePath(path, inf) + "`"
  {
    var entries := Map(QueryEntry, Filter(params, IsQueryParam));
    var head := "`" + TemplatePath(path, inf);
    var query := if |entries| > 0 then "${serializeSearchParams({" + Join(entries, ",") + " })}" else "";
    var text := head + query + "`";
    assert text[..|head|] == head;
    Code(text, if |entries| > 0 then [ClientImport("serializeSearchParams", importPrefix)] else [])
  }

  // ----- buildHookFnBody

  function ParamsOf(ps: Option<seq<Parameter>>): seq<Parameter> {
    if ps.Some? then ps.value else []
  }

  /** `[\`"${plural(lcFirst(entityName))}"\`, ...parameters.map((p) => p.tsName)]`; `lcFirst(undefined)` throws. */
  function QueryKeyOf(entityName: Option<string>, ps: Option<seq<Parameter>>, inf: Inflector): (r: Result<seq<string>>)
    ensures r.Ok? <==> entityName.Some?
    ensures r.Ok? ==> |r.value| == 1 + |ParamsOf(ps)|
    ensures r.Ok? ==> r.value[0] == "\"" + Plural(inf, LcFirst(entityName.value)) + "\""
    ensures r.Ok? ==> forall i :: 0 <= i < |ParamsOf(ps)| ==> r.value[i + 1] == ParamsOf(ps)[i].tsName
  {
    if entityName.None? then Err("TypeError")
    else Ok(["\"" + Plural(inf, LcFirst(entityName.value)) + "\""] + Map((p: Parameter) => p.tsName, ParamsOf(ps)))
  }

  /** The body of a hook, by hook type. */
  datatype FnBody =
    | QueryBody(queryKey: seq<string>, path: string, schema: string)
    | CollectionBody(queryKey: seq<string>, path: string, schema: string)
    | CreateBody(queryKey: seq<string>, data: Option<string>, path: string)
    | UpdateBody(queryKey: seq<string>, data: Option<string>, path: string)
    | DeleteBody(queryKey: seq<string>, path: string)

  /** The helpers a body calls. */
  function CalledHelpers(b: FnBody): seq<string> {
    match b
    case QueryBody(_, _, _) => ["useApiQuery"]
    case CollectionBody(_, _, _) => ["useApiCollectionQuery"]
    case CreateBody(_, _, _) => ["useQueryClient", "useApiMutation", "create"]
    case UpdateBody(_, _, _) => ["useQueryClient", "useApiMutation", "update"]
    case DeleteBody(_, _) => ["useQueryClient", "useApiMutation", "delete_"]
  }

  function ZodNameOf(name: string): string {
    name + "Schema"
  }

  /** The import of a schema's TypeScript type (`requestSchema.name`) or Zod schema from its module. */
  function SchemaImport(symbol: string, name: string, importPrefix: string): ImportDef {
    ImportDef(symbol, SchemaModule(importPrefix, ZodNameOf(name)), None, false)
  }

  function DataImports(requestSchema: Option<string>, importPrefix: string): seq<ImportDef> {
    if requestSchema.Some? then [SchemaImport(requestSchema.value, requestSchema.value, importPrefix)] else []
  }

  /** The imports `buildDeleteHookFnBody` records as written: `useApiMutation` is not among them. */
  function DeleteImportsAsWritten(importPrefix: string): seq<ImportDef> {
    [QueryImport("useQueryClient"), ClientImport("delete_", importPrefix),
     ClientImport("UseApiMutationOptions", importPrefix), ClientImport("UseApiQueryOptions", importPrefix)]
  }

  /** The imports of the delete body, with the `useApiMutation` it calls. */
  function DeleteImports(importPrefix: string): seq<ImportDef> {
    [QueryImport("useQueryClient"), ClientImport("delete_", importPrefix), ClientImport("useApiMutation", importPrefix),
     ClientImport("UseApiMutationOptions", importPrefix), ClientImport("UseApiQueryOptions", importPrefix)]
  }

  predicate Imported(symbol: string, imports: seq<ImportDef>) {
    exists i :: 0 <= i < |imports| && imports[i].symbol == symbol
  }

  /** As written, the delete body calls `useApiMutation` without importing it. */
  lemma DeleteBodyMissesImport(importPrefix: string, key: seq<string>, path: string)
    ensures "useApiMutation" in CalledHelpers(DeleteBody(key, path))
    ensures !Imported("useApiMutation", DeleteImportsAsWritten(importPrefix))
  {
  }

  /**
   * `buildHookFnBody`: the query key (recorded on the operation), then the
   * body for the hook type with the imports it records, in order. The hook
   * must be set, and the read and list bodies need the response schema.
   */
  function HookFnBody(v: OpView, importPrefix: string, inf: Inflector): (r: Result<(seq<string>, FnBody, seq<ImportDef>)>)
    ensures r.Ok? ==> v.hook.Some? && Ok(r.value.0) == QueryKeyOf(v.entityName, v.parameters, inf)
    ensures r.Ok? ==> forall h :: h in CalledHelpers(r.value.1) ==> Imported(h, r.value.2)
    ensures r.Err? <==> v.hook.None? || v.entityName.None? || (IsQuery(v.hook.value.typ) && v.responseSchema.None?)
  {
    if v.hook.None? then Err("TypeError")
    else
      var key :- QueryKeyOf(v.entityName, v.parameters, inf);
      if IsQuery(v.hook.value.typ) && v.responseSchema.None? then Err("TypeError")
      else
        var (body, imports) := BodyOf(v, key, importPrefix, inf);
        Ok((key, body, imports))
  }

  /** The body of hook `v` and the imports it needs, once its query key is known. */
  function BodyOf(v: OpView, key: seq<string>, importPrefix: string, inf: Inflector): (r: (FnBody, seq<ImportDef>))
    requires v.hook.Some? && (IsQuery(v.hook.value.typ) ==> v.responseSchema.Some?)
    ensures forall h :: h in CalledHelpers(r.0) ==> Imported(h, r.1)
  {
    match v.hook.value.typ
    case Create =>
      var path := BuildPath(v.path, [], importPrefix, inf);
      var imports := [QueryImport("useQueryClient"), ClientImport("create", importPrefix), ClientImport("useApiMutation", importPrefix)]
                     + DataImports(v.requestSchema, importPrefix);
      assert imports[0].symbol == "useQueryClient" && imports[1].symbol == "create" && imports[2].symbol == "useApiMutation";
      (CreateBody(key, v.requestSchema, path.text), imports)
    case Update =>
      var path := BuildPath(v.path, [], importPrefix, inf);
      var imports := [QueryImport("useQueryClient"), ClientImport("update", importPrefix), ClientImport("useApiMutation", importPrefix),
                      ClientImport("UseApiQueryOptions", importPrefix)] + DataImports(v.requestSchema, importPrefix);
      assert imports[0].symbol == "useQueryClient" && imports[1].symbol == "update" && imports[2].symbol == "useApiMutation";
      (UpdateBody(key, v.requestSchema, path.text), imports)
    case Read =>
      var zod := ZodNameOf(v.responseSchema.value);
      var path := BuildPath(v.path, [], importPrefix, inf);
      var imports := [ClientImport("useApiQuery", importPrefix), SchemaImport(zod, v.responseSchema.value, importPrefix)];
      assert imports[0].symbol == "useApiQuery";
      (QueryBody(key, path.text, zod), imports)
    case Delete =>
      var path := BuildPath(v.path, [], importPrefix, inf);
      var imports := DeleteImports(importPrefix);
      assert imports[0].symbol == "useQueryClient" && imports[1].symbol == "delete_" && imports[2].symbol == "useApiMutation";
      (DeleteBody(key, path.text), imports)
    case List =>
      var zod := ZodNameOf(v.responseSchema.value);
      var path := BuildPath(v.path, ParamsOf(v.parameters), importPrefix, inf);
      var imports := [ClientImport("useApiCollectionQuery", importPrefix), SchemaImport(zod, v.responseSchema.value, importPrefix)]
                     + path.imports;
      assert imports[0].symbol == "useApiCollectionQuery";
      (CollectionBody(key, path.text, zod), imports)
  }

  /** The text of a body, following the templates of `repository.ts`. */
  function RenderBody(b: FnBody): string {
    match b
    case QueryBody(key, path, schema) =>
      "return useApiQuery({\n    queryKey: [" + Join(key, ", ") + "],\n    path: " + path
      + ",\n    schema: " + schema + ",\n    ...options,\n  });"
    case CollectionBody(key, path, schema) =>
      "return useApiCollectionQuery({\n    queryKey: [" + Join(key, ", ") + "],\n    path: " + path
      + ",\n    schema: " + schema + ",\n    ...options,\n  });"
    case CreateBody(key, data, path) => MutationText(key, data, "create", path)
    case UpdateBody(key, data, path) => MutationText(key, data, "update", path)
    case DeleteBody(key, path) =>
      "const queryClient = useQueryClient();\n  return useApiMutation({\n    mutationKey: [" + Join(key, ", ")
      + "],\n    mutationFn: async (): Promise<void> => delete_(" + path + "),\n    onSuccess: async () => {\n"
      + "      await queryClient.invalidateQueries({ queryKey: [" + Head(key) + "] });\n    },\n    ...options,\n  });"
  }

  function Head(key: seq<string>): string {
    if |key| > 0 then key[0] else "undefined"
  }

  function MutationText(key: seq<string>, data: Option<string>, fn: string, path: string): string {
    "const queryClient = useQueryClient();\n  return useApiMutation({\n    mutationKey: [" + Join(key, ", ")
    + "],\n    mutationFn: async (" + (if data.Some? then "data: " + data.value else "") + ") => " + fn + "(" + path
    + (if data.Some? then ", data" else "") + "),\n    onSuccess: async () => {\n"
    + "      await queryClient.invalidateQueries({ queryKey: [" + Head(key) + "] });\n    },\n    form,\n    ...options,\n  });"
  }

  // ----- buildRepositoryCode

  /** Weird case of a GET endpoint returning no data: it is left out of the repository. */
  predicate Kept(v: OpView) {
    !(v.httpMethod == Get && v.responseSchema.None?)
  }

  /** The type of the `options` argument: query options for `get`, mutation options otherwise. */
  function OptionsType(m: Method, responseSchema: Option<string>): (r: string)
    ensures m == Get ==> StartsWith(r, "UseApiQueryOptions<TQueryKey, typeof ")
    ensures m != Get ==> r == "UseApiMutationOptions<any, any, any>"
  {
    if m == Get then
      var head := "UseApiQueryOptions<TQueryKey, typeof ";
      var r := head + (if responseSchema.Some? then ZodNameOf(responseSchema.value) else "undefined") + ">";
      assert r[..|head|] == head;
      r
    else "UseApiMutationOptions<any, any, any>"
  }

  function OptionsImport(m: Method, importPrefix: string): ImportDef {
    ClientImport(if m == Get then "UseApiQueryOptions" else "UseApiMutationOptions", importPrefix)
  }

  /** The argument lines: each parameter's `hookArgStr`, the form when there is a request schema, then `options`. */
  function HookArgs(v: OpView): (r: seq<string>)
    ensures |r| == |ParamsOf(v.parameters)| + (if v.requestSchema.Some? then 1 else 0) + 1
    ensures forall i :: 0 <= i < |ParamsOf(v.parameters)| ==> r[i] == "  " + ParamsOf(v.parameters)[i].hookArgStr + ","
    ensures r[|r| - 1] == "  options: Partial<" + OptionsType(v.httpMethod, v.responseSchema) + "> = {},"
  {
    Map((p: Parameter) => "  " + p.hookArgStr + ",", ParamsOf(v.parameters))
    + (if v.requestSchema.Some? then ["  form: UseFormReturn<" + v.requestSchema.value + ">,"] else [])
    + ["  options: Partial<" + OptionsType(v.httpMethod, v.responseSchema) + "> = {},"]
  }

  function ArgImports(v: OpView, importPrefix: string): seq<ImportDef> {
    (if v.requestSchema.Some? then [ImportDef("UseFormReturn", "react-hook-form", None, false)] else [])
    + [OptionsImport(v.httpMethod, importPrefix)]
  }

  /** `// ` before the text and after every newline in it. */
  function CommentRest(s: string): string {
    if s == [] then []
    else if s[0] == '\n' then "\n// " + CommentRest(s[1..])
    else [s[0]] + CommentRest(s[1..])
  }

  /** `text.replaceAll(/^|\n/g, (m) => \`${m[0] ?? ""}// \`)` */
  function CommentOut(text: string): string {
    "// " + CommentRest(text)
  }

  function Commented(line: string): string {
    "// " + line
  }

  lemma {:induction false} CommentRestAppend(a: string, b: string)
    ensures CommentRest(a + b) == CommentRest(a) + CommentRest(b)
  {
    if a != [] {
      assert (a + b)[1..] == a[1..] + b;
      CommentRestAppend(a[1..], b);
    } else {
      assert a + b == b;
    }
  }

  lemma {:induction false} CommentRestNoNewline(s: string)
    requires '\n' !in s
    ensures CommentRest(s) == s
  {
    if s != [] {
      CommentRestNoNewline(s[1..]);
    }
  }

  lemma CommentRestNewline(rest: string)
    ensures CommentRest("\n" + rest) == "\n// " + CommentRest(rest)
  {
    assert ("\n" + rest)[1..] == rest;
  }

  lemma SplitAtFirst(text: string, k: nat)
    requires '\n' in text && k == IndexOf(text, '\n')
    ensures Split(text, '\n') == [text[..k]] + Split(text[k + 1..], '\n')
  {
  }

  /** Commenting out a first line and the rest after its newline. */
  lemma CommentOutStep(a: string, rest: string)
    requires '\n' !in a
    ensures CommentOut(a + ("\n" + rest)) == Commented(a) + "\n" + CommentOut(rest)
  {
    CommentRestAppend(a, "\n" + rest);
    CommentRestNoNewline(a);
    CommentRestNewline(rest);
  }

  /** Commenting out is prefixing every line with `// `. */
  lemma {:induction false} CommentOutJoin(text: string)
    ensures CommentOut(text) == Join(Map(Commented, Split(text, '\n')), "\n")
    decreases |text|
  {
    if '\n' in text {
      var k := IndexOf(text, '\n');
      var a, rest := text[..k], text[k + 1..];
      var tail := Map(Commented, Split(rest, '\n'));
      CommentOutJoin(rest);
      SplitAtFirst(text, k);
      assert text == a + ("\n" + rest);
      CommentOutStep(a, rest);
      assert Map(Commented, Split(text, '\n')) == [Commented(a)] + tail;
      JoinCons(Commented(a), tail, "\n");
    } else {
      CommentRestNoNewline(text);
    }
  }

  /** The lines of a commented-out hook are its own lines, each behind `// `. */
  lemma CommentOutLines(text: string)
    ensures Split(CommentOut(text), '\n') == Map(Commented, Split(text, '\n'))
  {
    CommentOutJoin(text);
    var pieces := Split(text, '\n');
    SplitPiecesFree(text, '\n');
    forall i | 0 <= i < |pieces| ensures '\n' !in Map(Commented, pieces)[i] {
      assert Map(Commented, pieces)[i] == "// " + pieces[i];
    }
    SplitJoin(Map(Commented, pieces), '\n');
  }

  /** A hook as emitted: its query key, its text and the imports it records, in order. */
  datatype HookOut = HookOut(index: nat, queryKey: seq<string>, text: string, imports: seq<ImportDef>)

  /** Every line of a commented-out text starts with `// `. */
  lemma CommentOutEveryLine(text: string)
    ensures forall line :: line in Split(CommentOut(text), '\n') ==> StartsWith(line, "// ")
  {
    CommentOutLines(text);
    var lines := Split(CommentOut(text), '\n');
    forall line | line in lines ensures StartsWith(line, "// ") {
      var i :| 0 <= i < |lines| && lines[i] == line;
      assert line == "// " + Split(text, '\n')[i];
      assert line[..3] == "// ";
    }
  }

  /** The declaration of a hook after the first line of its doc comment: the endpoint, the id, the signature and the body. */
  function HookTail(v: OpView, h: HookInfo, body: FnBody): string {
    " * Endpoint: " + UpperStr(MethodName(v.httpMethod)) + " " + v.path
    + "\n * API Platform id : " + v.operationId + "\n */\nexport function " + h.name
    + "<TQueryKey extends QueryKey>(\n" + Join(HookArgs(v), "\n") + "\n) {\n  " + RenderBody(body) + "\n}"
  }

  /** The declaration of a hook: its doc comment, its signature and its body. */
  function HookDeclaration(v: OpView, h: HookInfo, body: FnBody): (r: string)
    ensures StartsWith(r, "/**\n * " + h.desc + "\n")
  {
    var head := "/**\n * " + h.desc + "\n";
    var tail := HookTail(v, h, body);
    assert (head + tail)[..|head|] == head;
    head + tail
  }

  /** An endpoint that cannot be generated: the hook, behind a `TODO` line with the reason, all commented out. */
  function WithTodo(reason: string, text: string): (r: string)
    ensures forall line :: line in Split(r, '\n') ==> StartsWith(line, "// ")
    ensures StartsWith(r, "// TODO ")
  {
    var t := "TODO " + reason + "\n" + text;
    CommentOutEveryLine(t);
    assert t == "TODO " + (reason + "\n" + text);
    CommentRestAppend("TODO ", reason + "\n" + text);
    CommentRestNoNewline("TODO ");
    var r := CommentOut(t);
    assert r == "// TODO " + CommentRest(reason + "\n" + text);
    assert r[..8] == "// TODO ";
    r
  }

  /** The imports of a hook in the order it records them: arguments, `QueryKey`, then the body's. */
  function HookImports(v: OpView, importPrefix: string, bodyImports: seq<ImportDef>): (r: seq<ImportDef>)
    ensures forall h :: Imported(h, bodyImports) ==> Imported(h, r)
    ensures Imported("QueryKey", r)
  {
    var front := ArgImports(v, importPrefix) + [QueryImport("QueryKey")];
    var r := front + bodyImports;
    assert r[|front| - 1].symbol == "QueryKey";
    assert forall i :: 0 <= i < |bodyImports| ==> r[|front| + i] == bodyImports[i];
    r
  }

  /** The text of a hook: its declaration, commented out behind a `TODO` when it cannot be generated. */
  function HookText(v: OpView, h: HookInfo, body: FnBody): (r: string)
    ensures Present(v.cantGenerateReason) ==> forall line :: line in Split(r, '\n') ==> StartsWith(line, "// ")
    ensures Present(v.cantGenerateReason) ==> StartsWith(r, "// TODO ")
    ensures !Present(v.cantGenerateReason) ==> StartsWith(r, "/**\n * " + h.desc + "\n")
  {
    var text := HookDeclaration(v, h, body);
    if Present(v.cantGenerateReason) then WithTodo(v.cantGenerateReason.value, text) else text
  }

  /** One element of `hooks` in `buildRepositoryCode`. */
  function HookCode(v: OpView, importPrefix: string, inf: Inflector): (r: Result<HookOut>)
    ensures r.Ok? <==> HookFnBody(v, importPrefix, inf).Ok?
    ensures r.Ok? ==> r.value.index == v.index && Ok(r.value.queryKey) == QueryKeyOf(v.entityName, v.parameters, inf)
    ensures r.Ok? ==> forall h :: h in CalledHelpers(HookFnBody(v, importPrefix, inf).value.1) ==> Imported(h, r.value.imports)
    ensures r.Ok? && Present(v.cantGenerateReason) ==> forall line :: line in Split(r.value.text, '\n') ==> StartsWith(line, "// ")
    ensures r.Ok? && !Present(v.cantGenerateReason) ==> StartsWith(r.value.text, "/**\n * " + v.hook.value.desc + "\n")
  {
    var fb := HookFnBody(v, importPrefix, inf);
    if fb.Err? then Err(fb.error)
    else Ok(HookOut(v.index, fb.value.0, HookText(v, v.hook.value, fb.value.1), HookImports(v, importPrefix, fb.value.2)))
  }

  /** The hooks of the kept operations, in order; the first error aborts. */
  function HookCodes(vs: seq<OpView>, importPrefix: string, inf: Inflector): Result<seq<HookOut>> {
    TryMap(HookFn(importPrefix, inf), Filter(vs, Kept))
  }

  function HookFn(importPrefix: string, inf: Inflector): OpView -> Result<HookOut> {
    v => HookCode(v, importPrefix, inf)
  }

  function Texts(hs: seq<HookOut>): seq<string> {
    Map((h: HookOut) => h.text, hs)
  }

  /** The file: the import lines, the banner, then the hooks separated by blank lines. */
  function RepositoryText(imports: string, apiDocUrl: string, hooks: seq<string>): string {
    imports + "\n\n// \U{1F916} This file has been autogenerated from " + apiDocUrl + " \U{1F916}\n\n" + Join(hooks, "\n\n") + "\n"
  }

  /** The import registry after one hook recorded its imports against its operation. */
  function RecordHook(e: map<ImportKey, seq<ImportDef>>, h: HookOut): map<ImportKey, seq<ImportDef>> {
    var key := OperationKey(h.index);
    if h.imports == [] then e else e[key := (if key in e then e[key] else []) + h.imports]
  }

  /** The import registry after each hook, in order, recorded its imports. */
  function RecordAll(e: map<ImportKey, seq<ImportDef>>, hs: seq<HookOut>): map<ImportKey, seq<ImportDef>>
    decreases |hs|
  {
    if hs == [] then e else RecordHook(RecordAll(e, hs[..|hs| - 1]), hs[|hs| - 1])
  }

  /** Recording only adds: every earlier definition of every key is still there, first. */
  lemma {:induction false} RecordAllGrows(e: map<ImportKey, seq<ImportDef>>, hs: seq<HookOut>, key: ImportKey)
    requires key in e
    ensures key in RecordAll(e, hs) && e[key] <= RecordAll(e, hs)[key]
    decreases |hs|
  {
    if hs != [] {
      RecordAllGrows(e, hs[..|hs| - 1], key);
    }
  }

  function OperationKeys(vs: seq<OpView>): seq<ImportKey> {
    Map((v: OpView) => OperationKey(v.index), vs)
  }

  function ViewsOf(ops: seq<Operation>): (r: seq<OpView>)
    reads ops
    ensures |r| == |ops|
    ensures forall i :: 0 <= i < |ops| ==> r[i] == ops[i].View()
    decreases |ops|
  {
    if ops == [] then [] else [ops[0].View()] + ViewsOf(ops[1..])
  }

  /** The registry after `defs` were recorded, in order, against operation `index`. */
  function RecordDefs(e: map<ImportKey, seq<ImportDef>>, index: nat, defs: seq<ImportDef>): map<ImportKey, seq<ImportDef>> {
    var key := OperationKey(index);
    if defs == [] then e else e[key := (if key in e then e[key] else []) + defs]
  }

  /**
   * What a hook that throws has recorded by then: the arguments' imports and
   * `QueryKey`, and, when the query key could be built, the first import of
   * the read or list body, which throws on the missing response schema.
   */
  function ThrownImports(v: OpView, importPrefix: string): seq<ImportDef>
    requires v.hook.Some?
  {
    var front := ArgImports(v, importPrefix) + [QueryImport("QueryKey")];
    if v.entityName.None? then front
    else front + [ClientImport(if v.hook.value.typ == List then "useApiCollectionQuery" else "useApiQuery", importPrefix)]
  }

  /**
   * The hook of one operation: records its query key on it and its imports
   * against it. `operation.queryKey` is assigned before the body is built,
   * so a read or list body that throws leaves it set.
   */
  method BuildHook(op: Operation, imp: ImportsBy<ImportKey>, importPrefix: string, inf: Inflector) returns (r: Result<HookOut>)
    modifies op`queryKey, imp
    ensures r == HookCode(op.View(), importPrefix, inf)
    ensures r.Ok? ==> op.queryKey == r.value.queryKey && imp.entries == RecordHook(old(imp.entries), r.value)
    ensures r.Err? && op.View().hook.None? ==> op.queryKey == old(op.queryKey) && imp.entries == old(imp.entries)
    ensures r.Err? && op.View().hook.Some? ==>
      imp.entries == RecordDefs(old(imp.entries), op.index, ThrownImports(op.View(), importPrefix))
    ensures r.Err? && op.View().hook.Some? && op.View().entityName.None? ==> op.queryKey == old(op.queryKey)
    ensures r.Err? && op.View().hook.Some? && op.View().entityName.Some? ==>
      Ok(op.queryKey) == QueryKeyOf(op.View().entityName, op.View().parameters, inf)
  {
    var v := op.View();
    r := HookCode(v, importPrefix, inf);
    if v.hook.None? {
      return;
    }
    var front := ArgImports(v, importPrefix) + [QueryImport("QueryKey")];
    var key := QueryKeyOf(v.entityName, v.parameters, inf);
    if key.Err? {
      imp.AddAll(OperationKey(op.index), front);
      return;
    }
    op.queryKey := key.value;
    if r.Err? {
      imp.AddAll(OperationKey(op.index), ThrownImports(v, importPrefix));
      assert op.View() == v;
      return;
    }
    var h := r.value;
    assert h.index == op.index;
    imp.AddAll(OperationKey(op.index), h.imports);
    assert imp.entries == RecordHook(old(imp.entries), h);
    assert op.View() == v;
  }

  /** The query key an operation carries after its hook is built. */
  predicate KeyRecorded(queryKey: seq<string>, v: OpView, inf: Inflector) {
    Ok(queryKey) == QueryKeyOf(v.entityName, v.parameters, inf)
  }

  /** One more element of a filtered `TryMap` loop, kept or not. */
  lemma TryMapFilterStep<T, U>(f: T -> Result<U>, p: T -> bool, vs: seq<T>, i: nat, done: seq<U>)
    requires i < |vs|
    requires TryMap(f, Filter(vs[..i], p)) == Ok(done)
    ensures !p(vs[i]) ==> TryMap(f, Filter(vs[..i + 1], p)) == Ok(done)
    ensures p(vs[i]) && f(vs[i]).Ok? ==> TryMap(f, Filter(vs[..i + 1], p)) == Ok(done + [f(vs[i]).value])
  {
    assert vs[..i + 1] == vs[..i] + [vs[i]];
    FilterAppend(vs[..i], [vs[i]], p);
    var s := Filter(vs[..i], p);
    if p(vs[i]) {
      assert Filter([vs[i]], p) == [vs[i]];
      assert (s + [vs[i]])[..|s|] == s;
    } else {
      assert Filter([vs[i]], p) == [];
      assert s + [] == s;
    }
  }

  /** A kept view whose hook fails makes the whole loop fail. */
  lemma HookCodesFail(vs: seq<OpView>, i: nat, importPrefix: string, inf: Inflector)
    requires i < |vs| && Kept(vs[i]) && HookCode(vs[i], importPrefix, inf).Err?
    ensures HookCodes(vs, importPrefix, inf).Err?
  {
    var f := HookFn(importPrefix, inf);
    var kept := Filter(vs, Kept);
    assert vs[i] in vs;
    assert vs[i] in kept;
    var j :| 0 <= j < |kept| && kept[j] == vs[i];
    TryMapOk(f, kept);
  }

  /** Builds the hook of `ops[i]`; the views of all the operations stay as they were. */
  method HookStep(ops: seq<Operation>, ghost views: seq<OpView>, i: nat, op: Operation, imp: ImportsBy<ImportKey>,
                  importPrefix: string, inf: Inflector) returns (h: Result<HookOut>)
    requires i < |ops| == |views| && op == ops[i]
    requires forall j :: 0 <= j < |ops| ==> ops[j].View() == views[j]
    modifies op`queryKey, imp
    ensures forall j :: 0 <= j < |ops| ==> ops[j].View() == views[j]
    ensures h == HookCode(views[i], importPrefix, inf)
    ensures h.Ok? ==> imp.entries == RecordHook(old(imp.entries), h.value)
    ensures h.Ok? ==> KeyRecorded(op.queryKey, views[i], inf)
  {
    h := BuildHook(op, imp, importPrefix, inf);
  }

  /** One turn of the hooks loop: the hook of `ops[i]`, when the operation is kept. */
  method Visit(ops: seq<Operation>, views: seq<OpView>, i: nat, imp: ImportsBy<ImportKey>, importPrefix: string,
               inf: Inflector, ghost e0: map<ImportKey, seq<ImportDef>>, hooks: seq<HookOut>) returns (r: Result<seq<HookOut>>)
    requires i < |ops| == |views|
    requires forall j :: 0 <= j < |ops| ==> ops[j].View() == views[j]
    requires TryMap(HookFn(importPrefix, inf), Filter(views[..i], Kept)) == Ok(hooks)
    requires imp.entries == RecordAll(e0, hooks)
    modifies ops, imp
    ensures forall j :: 0 <= j < |ops| ==> ops[j].View() == views[j]
    ensures r.Ok? ==> TryMap(HookFn(importPrefix, inf), Filter(views[..i + 1], Kept)) == r
    ensures r.Ok? ==> imp.entries == RecordAll(e0, r.value)
    ensures r.Err? ==> HookCodes(views, importPrefix, inf).Err?
  {
    TryMapFilterStep(HookFn(importPrefix, inf), Kept, views, i, hooks);
    if !Kept(views[i]) {
      return Ok(hooks);
    }
    var h := HookStep(ops, views, i, ops[i], imp, importPrefix, inf);
    if h.Err? {
      HookCodesFail(views, i, importPrefix, inf);
      return Err(h.error);
    }
    assert (hooks + [h.value])[..|hooks|] == hooks;
    r := Ok(hooks + [h.value]);
  }

  /** The hooks loop of `buildRepositoryCode`, over operations whose views are `views`. */
  method BuildHooks(ops: seq<Operation>, views: seq<OpView>, imp: ImportsBy<ImportKey>, importPrefix: string,
                    inf: Inflector) returns (r: Result<seq<HookOut>>)
    requires |ops| == |views|
    requires forall j :: 0 <= j < |ops| ==> ops[j].View() == views[j]
    modifies ops, imp
    ensures forall j :: 0 <= j < |ops| ==> ops[j].View() == views[j]
    ensures r.Ok? <==> HookCodes(views, importPrefix, inf).Ok?
    ensures r.Ok? ==> r == HookCodes(views, importPrefix, inf) && imp.entries == RecordAll(old(imp.entries), r.value)
  {
    var hooks: seq<HookOut> := [];
    var i := 0;
    ghost var e0 := imp.entries;
    assert views[..0] == [];
    while i < |ops|
      invariant 0 <= i <= |ops|
      invariant forall j :: 0 <= j < |ops| ==> ops[j].View() == views[j]
      invariant TryMap(HookFn(importPrefix, inf), Filter(views[..i], Kept)) == Ok(hooks)
      invariant imp.entries == RecordAll(e0, hooks)
    {
      var next := Visit(ops, views, i, imp, importPrefix, inf, e0, hooks);
      if next.Err? {
        return Err(next.error);
      }
      hooks := next.value;
      i := i + 1;
    }
    assert views[..|ops|] == views;
    r := Ok(hooks);
  }

  /**
   * `buildRepositoryCode`: the hooks of the operations that are kept, each
   * recording its query key and imports, then the import lines of all the
   * operations, the banner and the hooks.
   */
  method BuildRepositoryCode(ops: seq<Operation>, imp: ImportsBy<ImportKey>, importPrefix: string, apiDocUrl: string,
                             inf: Inflector) returns (r: Result<string>)
    modifies ops, imp
    ensures ViewsOf(ops) == old(ViewsOf(ops))
    ensures forall o :: o in ops ==> o.View() == old(o.View())
    ensures r.Ok? <==> HookCodes(old(ViewsOf(ops)), importPrefix, inf).Ok?
    ensures r.Ok? ==> imp.entries == RecordAll(old(imp.entries), HookCodes(old(ViewsOf(ops)), importPrefix, inf).value)
    ensures r.Ok? ==> r.value == RepositoryText(Join(ImportLines(imp.Gather(OperationKeys(ViewsOf(ops))), None), "\n"),
                                                apiDocUrl, Texts(HookCodes(old(ViewsOf(ops)), importPrefix, inf).value))
  {
    var views := ViewsOf(ops);
    var hooks := BuildHooks(ops, views, imp, importPrefix, inf);
    assert ViewsOf(ops) == views;
    forall o | o in ops ensures o.View() == old(o.View()) {
      var j :| 0 <= j < |ops| && ops[j] == o;
    }
    if hooks.Err? {
      return Err(hooks.error);
    }
    var imports := imp.BuildImports(OperationKeys(views), None);
    r := Ok(RepositoryText(imports, apiDocUrl, Texts(hooks.value)));
  }
}

/**
 * `buildRepositoriesCode`: the operations grouped by entity name, one
 * repository file per group.
 */
module Repositories {
  import opened Wrappers
  import opened Strings
  import opened Seqs
  import opened Utils
  import opened Imports
  import opened Resolver
  import opened Operations
  import opened Repository

  /** The property name of a group: a missing entity name is the string `undefined`. */
  function GroupKey(entityName: Option<string>): string {
    if entityName.Some? then entityName.value else "undefined"
  }

  function GroupKeys(views: seq<OpView>): seq<string> {
    Map((v: OpView) => GroupKey(v.entityName), views)
  }

  /** The distinct keys in the order of their first occurrence (the insertion order of the object's properties). */
  function FirstOrder(keys: seq<string>): seq<string>
    decreases |keys|
  {
    if keys == [] then []
    else
      var seen := FirstOrder(keys[..|keys| - 1]);
      if keys[|keys| - 1] in seen then seen else seen + [keys[|keys| - 1]]
  }

  lemma {:induction false} FirstOrderSpec(keys: seq<string>)
    ensures forall i, j :: 0 <= i < j < |FirstOrder(keys)| ==> FirstOrder(keys)[i] != FirstOrder(keys)[j]
    ensures forall k :: k in FirstOrder(keys) <==> k in keys
    decreases |keys|
  {
    if keys != [] {
      var init := keys[..|keys| - 1];
      FirstOrderSpec(init);
      assert keys == init + [keys[|keys| - 1]];
    }
  }

  /** The positions of the operations of group `k`, in order. */
  function Positions(keys: seq<string>, k: string): (r: seq<nat>)
    ensures forall j :: 0 <= j < |r| ==> r[j] < |keys| && keys[r[j]] == k
    ensures forall i :: 0 <= i < |keys| && keys[i] == k ==> i in r
    ensures forall j, l :: 0 <= j < l < |r| ==> r[j] < r[l]
    decreases |keys|
  {
    if keys == [] then []
    else
      var init := Positions(keys[..|keys| - 1], k);
      if keys[|keys| - 1] == k then init + [|keys| - 1] else init
  }

  function Select<T>(xs: seq<T>, pos: seq<nat>): (r: seq<T>)
    requires forall j :: 0 <= j < |pos| ==> pos[j] < |xs|
    ensures |r| == |pos|
    ensures forall j :: 0 <= j < |pos| ==> r[j] == xs[pos[j]]
  {
    seq(|pos|, j requires 0 <= j < |pos| => xs[pos[j]])
  }

  /** The views of the operations of group `k`, in their order. */
  function GroupViews(views: seq<OpView>, k: string): seq<OpView> {
    Select(views, Positions(GroupKeys(views), k))
  }

  function RepositoryPath(outputPath: string, entityName: string): string {
    outputPath + "/repositories/" + entityName + "Repository.ts"
  }

  /** Distinct groups are written to distinct files. */
  lemma RepositoryPathInjective(outputPath: string, a: string, b: string)
    ensures RepositoryPath(outputPath, a) == RepositoryPath(outputPath, b) <==> a == b
  {
    if RepositoryPath(outputPath, a) == RepositoryPath(outputPath, b) {
      RepositoryPathSame(outputPath, a, b);
    }
  }

  lemma RepositoryPathSame(outputPath: string, a: string, b: string)
    requires RepositoryPath(outputPath, a) == RepositoryPath(outputPath, b)
    ensures a == b
  {
    var head := outputPath + "/repositories/";
    var pa, pb := RepositoryPath(outputPath, a), RepositoryPath(outputPath, b);
    assert pa == head + a + "Repository.ts" && pb == head + b + "Repository.ts";
    assert |a| == |b|;
    assert a == pa[|head|..|head| + |a|];
    assert b == pb[|head|..|head| + |b|];
  }

  /** A list of hooks succeeds exactly when every kept operation's hook does. */
  lemma HookCodesOk(vs: seq<OpView>, importPrefix: string, inf: Inflector)
    ensures HookCodes(vs, importPrefix, inf).Ok? <==> forall v :: v in vs && Kept(v) ==> HookCode(v, importPrefix, inf).Ok?
  {
    TryMapFilterOk(HookFn(importPrefix, inf), vs, Kept);
  }



  /** Every operation is in the group of its own entity name. */
  lemma InOwnGroup(views: seq<OpView>, i: nat)
    requires i < |views|
    ensures views[i] in GroupViews(views, GroupKey(views[i].entityName))
  {
    var keys := GroupKeys(views);
    var pos := Positions(keys, keys[i]);
    assert i in pos;
    var j :| 0 <= j < |pos| && pos[j] == i;
    assert GroupViews(views, keys[i])[j] == views[i];
  }

  /** Group `k` holds exactly the operations whose entity name is `k`. */
  lemma GroupMembers(views: seq<OpView>, k: string, v: OpView)
    requires v in GroupViews(views, k)
    ensures v in views && GroupKey(v.entityName) == k
  {
    var g := GroupViews(views, k);
    var j :| 0 <= j < |g| && g[j] == v;
    var pos := Positions(GroupKeys(views), k);
    assert v == views[pos[j]];
  }

  /** The repository file of group `k`: its hooks, after some import lines. */
  ghost predicate FileFor(files: map<string, string>, views: seq<OpView>, k: string, outputPath: string, apiDocUrl: string,
                          importPrefix: string, inf: Inflector) {
    && RepositoryPath(outputPath, k) in files
    && HookCodes(GroupViews(views, k), importPrefix, inf).Ok?
    && exists imports :: files[RepositoryPath(outputPath, k)]
         == RepositoryText(imports, apiDocUrl, Texts(HookCodes(GroupViews(views, k), importPrefix, inf).value))
  }

  /** When every group's hooks can be built, every kept operation's hook can. */
  lemma AllGroupsOk(views: seq<OpView>, order: seq<string>, importPrefix: string, inf: Inflector)
    requires forall k :: k in GroupKeys(views) ==> k in order
    requires forall m :: 0 <= m < |order| ==> HookCodes(GroupViews(views, order[m]), importPrefix, inf).Ok?
    ensures HookCodes(views, importPrefix, inf).Ok?
  {
    var keys := GroupKeys(views);
    forall v | v in views && Kept(v) ensures HookCode(v, importPrefix, inf).Ok? {
      var i :| 0 <= i < |views| && views[i] == v;
      InOwnGroup(views, i);
      assert keys[i] in keys;
      var m :| 0 <= m < |order| && order[m] == keys[i];
      HookCodesOk(GroupViews(views, keys[i]), importPrefix, inf);
    }
    HookCodesOk(views, importPrefix, inf);
  }

  /** The repository of one group: `buildRepositoryCode` on the operations whose entity name is `k`. */
  method BuildGroup(ops: seq<Operation>, views: seq<OpView>, k: string, imp: ImportsBy<ImportKey>, importPrefix: string,
                    apiDocUrl: string, inf: Inflector) returns (code: Result<string>)
    requires |ops| == |views|
    requires forall j :: 0 <= j < |ops| ==> ops[j].View() == views[j]
    modifies ops, imp
    ensures forall j :: 0 <= j < |ops| ==> ops[j].View() == views[j]
    ensures code.Ok? ==> HookCodes(GroupViews(views, k), importPrefix, inf).Ok?
    ensures code.Ok? ==>
      exists imports :: code.value == RepositoryText(imports, apiDocUrl, Texts(HookCodes(GroupViews(views, k), importPrefix, inf).value))
    ensures code.Err? ==> HookCodes(views, importPrefix, inf).Err?
  {
    var group := Select(ops, Positions(GroupKeys(views), k));
    GroupOfViews(ops, views, k);
    code := BuildRepositoryCode(group, imp, importPrefix, apiDocUrl, inf);
    forall j | 0 <= j < |ops| ensures ops[j].View() == views[j] {
      if ops[j] in group {
        assert ops[j].View() == old(ops[j].View());
      }
    }
    if code.Ok? {
      ghost var imports := Join(ImportLines(imp.Gather(OperationKeys(ViewsOf(group))), None), "\n");
      assert code.value == RepositoryText(imports, apiDocUrl, Texts(HookCodes(GroupViews(views, k), importPrefix, inf).value));
    } else {
      GroupErr(views, k, importPrefix, inf);
    }
  }

  /** The operations of group `k` are among `ops`, and their views are the group's views. */
  lemma GroupOfViews(ops: seq<Operation>, views: seq<OpView>, k: string)
    requires |ops| == |views|
    requires forall j :: 0 <= j < |ops| ==> ops[j].View() == views[j]
    ensures forall o :: o in Select(ops, Positions(GroupKeys(views), k)) ==> o in ops
    ensures ViewsOf(Select(ops, Positions(GroupKeys(views), k))) == GroupViews(views, k)
  {
    var group := Select(ops, Positions(GroupKeys(views), k));
    assert ViewsOf(group) == GroupViews(views, k);
  }

  /** A group whose hooks fail makes the hooks of all the operations fail. */
  lemma GroupErr(views: seq<OpView>, k: string, importPrefix: string, inf: Inflector)
    requires HookCodes(GroupViews(views, k), importPrefix, inf).Err?
    ensures HookCodes(views, importPrefix, inf).Err?
  {
    HookCodesOk(GroupViews(views, k), importPrefix, inf);
    var v :| v in GroupViews(views, k) && Kept(v) && HookCode(v, importPrefix, inf).Err?;
    GroupMembers(views, k, v);
    HookCodesOk(views, importPrefix, inf);
  }

  /** The files of the first `g` groups of `order`, and no other file. */
  ghost predicate FilesDone(files: map<string, string>, views: seq<OpView>, order: seq<string>, g: nat, outputPath: string,
                            apiDocUrl: string, importPrefix: string, inf: Inflector)
    requires g <= |order|
  {
    && (forall p :: p in files <==> exists m :: 0 <= m < g && p == RepositoryPath(outputPath, order[m]))
    && (forall m :: 0 <= m < g ==> FileFor(files, views, order[m], outputPath, apiDocUrl, importPrefix, inf))
  }

  /** Adding the file of group `g` keeps the files of the earlier, distinct, groups. */
  lemma FilesStep(files: map<string, string>, views: seq<OpView>, order: seq<string>, g: nat, outputPath: string,
                  apiDocUrl: string, importPrefix: string, inf: Inflector, code: string)
    requires g < |order|
    requires forall i, j :: 0 <= i < j < |order| ==> order[i] != order[j]
    requires FilesDone(files, views, order, g, outputPath, apiDocUrl, importPrefix, inf)
    requires HookCodes(GroupViews(views, order[g]), importPrefix, inf).Ok?
    requires exists imports :: code == RepositoryText(imports, apiDocUrl, Texts(HookCodes(GroupViews(views, order[g]), importPrefix, inf).value))
    ensures FilesDone(files[RepositoryPath(outputPath, order[g]) := code], views, order, g + 1, outputPath, apiDocUrl, importPrefix, inf)
  {
    var path := RepositoryPath(outputPath, order[g]);
    var next := files[path := code];
    FilesStepPaths(files, next, order, g, outputPath, code);
    FilesStepOthers(files, views, order, g, outputPath, apiDocUrl, importPrefix, inf, code);
    FileForNew(files, views, order[g], outputPath, apiDocUrl, importPrefix, inf, code);
    forall m | 0 <= m < g + 1 ensures FileFor(next, views, order[m], outputPath, apiDocUrl, importPrefix, inf) {
      if m == g {
        assert order[m] == order[g];
      }
    }
  }

  lemma FileForNew(files: map<string, string>, views: seq<OpView>, k: string, outputPath: string,
                   apiDocUrl: string, importPrefix: string, inf: Inflector, code: string)
    requires HookCodes(GroupViews(views, k), importPrefix, inf).Ok?
    requires exists imports :: code == RepositoryText(imports, apiDocUrl, Texts(HookCodes(GroupViews(views, k), importPrefix, inf).value))
    ensures FileFor(files[RepositoryPath(outputPath, k) := code], views, k, outputPath, apiDocUrl, importPrefix, inf)
  {
    var next := files[RepositoryPath(outputPath, k) := code];
    var imports :| code == RepositoryText(imports, apiDocUrl, Texts(HookCodes(GroupViews(views, k), importPrefix, inf).value));
    assert next[RepositoryPath(outputPath, k)] == code;
  }

  lemma FilesStepPaths(files: map<string, string>, next: map<string, string>, order: seq<string>, g: nat,
                       outputPath: string, code: string)
    requires g < |order| && next == files[RepositoryPath(outputPath, order[g]) := code]
    requires forall p :: p in files <==> exists m :: 0 <= m < g && p == RepositoryPath(outputPath, order[m])
    ensures forall p :: p in next <==> exists m :: 0 <= m < g + 1 && p == RepositoryPath(outputPath, order[m])
  {
    var path := RepositoryPath(outputPath, order[g]);
    forall p | p in next ensures exists m :: 0 <= m < g + 1 && p == RepositoryPath(outputPath, order[m]) {
      if p != path {
        var m :| 0 <= m < g && p == RepositoryPath(outputPath, order[m]);
      }
    }
  }



  /** The files of the earlier groups survive the new file, which lies at another path. */
  lemma FilesStepOthers(files: map<string, string>, views: seq<OpView>, order: seq<string>, g: nat, outputPath: string,
                        apiDocUrl: string, importPrefix: string, inf: Inflector, code: string)
    requires g < |order|
    requires forall i, j :: 0 <= i < j < |order| ==> order[i] != order[j]
    requires forall m :: 0 <= m < g ==> FileFor(files, views, order[m], outputPath, apiDocUrl, importPrefix, inf)
    ensures forall m :: 0 <= m < g ==>
      FileFor(files[RepositoryPath(outputPath, order[g]) := code], views, order[m], outputPath, apiDocUrl, importPrefix, inf)
  {
    var path := RepositoryPath(outputPath, order[g]);
    var next := files[path := code];
    forall m | 0 <= m < g ensures FileFor(next, views, order[m], outputPath, apiDocUrl, importPrefix, inf) {
      var p := RepositoryPath(outputPath, order[m]);
      RepositoryPathInjective(outputPath, order[m], order[g]);
      assert FileFor(files, views, order[m], outputPath, apiDocUrl, importPrefix, inf);
      assert next[p] == files[p];
    }
  }

  /** When the files of all groups are done, each entity name has its file. */
  lemma FilesComplete(files: map<string, string>, views: seq<OpView>, order: seq<string>, outputPath: string,
                      apiDocUrl: string, importPrefix: string, inf: Inflector)
    requires forall k :: k in order <==> k in GroupKeys(views)
    requires FilesDone(files, views, order, |order|, outputPath, apiDocUrl, importPrefix, inf)
    ensures forall p :: p in files <==> exists k :: k in GroupKeys(views) && p == RepositoryPath(outputPath, k)
    ensures forall k :: k in GroupKeys(views) ==> FileFor(files, views, k, outputPath, apiDocUrl, importPrefix, inf)
  {
    forall p ensures p in files <==> exists k :: k in GroupKeys(views) && p == RepositoryPath(outputPath, k) {
      if p in files {
        var m :| 0 <= m < |order| && p == RepositoryPath(outputPath, order[m]);
        assert order[m] in order;
      }
      if exists k :: k in GroupKeys(views) && p == RepositoryPath(outputPath, k) {
        var k :| k in GroupKeys(views) && p == RepositoryPath(outputPath, k);
        var m :| 0 <= m < |order| && order[m] == k;
      }
    }
    forall k | k in GroupKeys(views) ensures FileFor(files, views, k, outputPath, apiDocUrl, importPrefix, inf) {
      var m :| 0 <= m < |order| && order[m] == k;
    }
  }

  /**
   * `buildRepositoriesCode`: one file per distinct entity name, holding the
   * hooks of that entity's operations in order; any hook that cannot be
   * built aborts the whole generation.
   */
  method BuildRepositoriesCode(ops: seq<Operation>, imp: ImportsBy<ImportKey>, importPrefix: string, outputPath: string,
                               apiDocUrl: string, inf: Inflector) returns (r: Result<map<string, string>>)
    modifies ops, imp
    ensures ViewsOf(ops) == old(ViewsOf(ops))
    ensures r.Ok? <==> HookCodes(old(ViewsOf(ops)), importPrefix, inf).Ok?
    ensures r.Ok? ==> forall p :: p in r.value <==> exists k :: k in GroupKeys(old(ViewsOf(ops))) && p == RepositoryPath(outputPath, k)
    ensures r.Ok? ==> forall k :: k in GroupKeys(old(ViewsOf(ops))) ==>
      FileFor(r.value, old(ViewsOf(ops)), k, outputPath, apiDocUrl, importPrefix, inf)
  {
    var views := ViewsOf(ops);
    var keys := GroupKeys(views);
    var order := FirstOrder(keys);
    FirstOrderSpec(keys);
    r := BuildFiles(ops, views, order, imp, importPrefix, outputPath, apiDocUrl, inf);
    assert ViewsOf(ops) == views;
    if r.Ok? {
      forall m | 0 <= m < |order| ensures HookCodes(GroupViews(views, order[m]), importPrefix, inf).Ok? {
        assert FileFor(r.value, views, order[m], outputPath, apiDocUrl, importPrefix, inf);
      }
      AllGroupsOk(views, order, importPrefix, inf);
      FilesComplete(r.value, views, order, outputPath, apiDocUrl, importPrefix, inf);
    }
  }

  /** The loop of `buildRepositoriesCode`: the files of the groups of `order`, one after the other. */
  method BuildFiles(ops: seq<Operation>, views: seq<OpView>, order: seq<string>, imp: ImportsBy<ImportKey>,
                    importPrefix: string, outputPath: string, apiDocUrl: string, inf: Inflector)
    returns (r: Result<map<string, string>>)
    requires |ops| == |views|
    requires forall j :: 0 <= j < |ops| ==> ops[j].View() == views[j]
    requires forall i, j :: 0 <= i < j < |order| ==> order[i] != order[j]
    modifies ops, imp
    ensures forall j :: 0 <= j < |ops| ==> ops[j].View() == views[j]
    ensures r.Ok? ==> FilesDone(r.value, views, order, |order|, outputPath, apiDocUrl, importPrefix, inf)
    ensures r.Err? ==> HookCodes(views, importPrefix, inf).Err?
  {
    var files: map<string, string> := map[];
    var g := 0;
    while g < |order|
      invariant 0 <= g <= |order|
      invariant forall j :: 0 <= j < |ops| ==> ops[j].View() == views[j]
      invariant FilesDone(files, views, order, g, outputPath, apiDocUrl, importPrefix, inf)
    {
      var next := AddGroup(ops, views, order, g, files, imp, importPrefix, outputPath, apiDocUrl, inf);
      if next.Err? {
        return next;
      }
      files := next.value;
      g := g + 1;
    }
    r := Ok(files);
  }

  /** One turn of the loop of `buildRepositoriesCode`: the file of group `order[g]` joins the files. */
  method AddGroup(ops: seq<Operation>, views: seq<OpView>, order: seq<string>, g: nat, files: map<string, string>,
                  imp: ImportsBy<ImportKey>, importPrefix: string, outputPath: string, apiDocUrl: string, inf: Inflector)
    returns (r: Result<map<string, string>>)
    requires |ops| == |views| && g < |order|
    requires forall j :: 0 <= j < |ops| ==> ops[j].View() == views[j]
    requires forall i, j :: 0 <= i < j < |order| ==> order[i] != order[j]
    requires FilesDone(files, views, order, g, outputPath, apiDocUrl, importPrefix, inf)
    modifies ops, imp
    ensures forall j :: 0 <= j < |ops| ==> ops[j].View() == views[j]
    ensures r.Ok? ==> FilesDone(r.value, views, order, g + 1, outputPath, apiDocUrl, importPrefix, inf)
    ensures r.Err? ==> HookCodes(views, importPrefix, inf).Err?
  {
    var code := BuildGroup(ops, views, order[g], imp, importPrefix, apiDocUrl, inf);
    if code.Err? {
      return Err(code.error);
    }
    FilesStep(files, views, order, g, outputPath, apiDocUrl, importPrefix, inf, code.value);
    r := Ok(files[RepositoryPath(outputPath, order[g]) := code.value]);
  }
}
