/**
 * Operation analysis (`operation.ts`): the hook type, name and description
 * of an endpoint, the TypeScript argument of each parameter, the stable rank
 * sort of the parameters, and the request and response schemas resolved
 * through the schema registry.
 */
module Operations {
  import opened Wrappers
  import opened Strings
  import opened Seqs
  import opened Sorting
  import opened Utils
  import opened SchemaNames
  import opened PropCode
  import opened Resolver

  datatype Method = Get | Post | Put | Patch | Delete

  function MethodName(m: Method): string {
    match m
    case Get => "get"
    case Post => "post"
    case Put => "put"
    case Patch => "patch"
    case Delete => "delete"
  }

  /** A value `undefined` or `""` is falsy. */
  predicate Present(o: Option<string>) {
    o.Some? && o.value != ""
  }

  // ----- parameters

  /** A JSON value of a parameter's `enum` or `default` (numbers are integers in this model). */
  datatype Json = JString(s: string) | JInt(i: int) | JBool(b: bool) | JNull

  /** `JSON.stringify` on such a value. */
  function Stringify(v: Json): (r: string)
    ensures |r| > 0
  {
    match v
    case JString(s) => Quote(s)
    case JInt(i) => IntToString(i)
    case JBool(b) => if b then "true" else "false"
    case JNull => "null"
  }

  /** JavaScript truthiness of such a value. */
  predicate Truthy(v: Json) {
    match v
    case JString(s) => s != ""
    case JInt(i) => i != 0
    case JBool(b) => b
    case JNull => false
  }

  /** `schema.type`: absent, a type name, or an object that may carry an `enum`. */
  datatype ParamType = NoType | Named(name: string) | TypeObject(enum: Option<seq<Json>>)

  datatype ParamSchema = ParamSchema(
    typ: ParamType,
    enum: Option<seq<Json>>,
    defaultValue: Option<Json>,
    items: Option<ParamSchema>)

  datatype Location = InQuery | InPath

  /** `tsName` and `hookArgStr` are written by `analyzeParameters`. */
  datatype Parameter = Parameter(
    name: string,
    location: Location,
    schema: ParamSchema,
    required: Option<bool>,
    tsName: string,
    hookArgStr: string)

  /** `values.map(JSON.stringify).join(" | ")` */
  function Alternatives(values: seq<Json>): string {
    Join(Map(Stringify, values), " | ")
  }

  /** The first-match chain of `parameterToHookArgType`. */
  function HookArgType(s: ParamSchema): (r: Result<string>)
    ensures r.Err? ==> r.error == "To be implemented"
    decreases s
  {
    if s.typ.TypeObject? && s.typ.enum.Some? then Ok(Alternatives(s.typ.enum.value))
    else if s.typ == Named("string") && s.enum.Some? then Ok("(" + Alternatives(s.enum.value) + ")")
    else if s.typ == Named("string") then Ok("string")
    else if s.typ == Named("integer") && s.defaultValue.Some? && Truthy(s.defaultValue.value) then
      Ok("number = " + Stringify(s.defaultValue.value))
    else if s.typ == Named("integer") then Ok("number")
    else if s.typ == Named("boolean") then Ok("boolean")
    else if s.typ == Named("array") && s.items.Some? then
      match HookArgType(s.items.value)
      case Ok(t) => Ok("Array<" + t + ">")
      case Err(e) => Err(e)
    else Err("To be implemented")
  }

  /** The parameter schemas the chain accepts, stated shape by shape. */
  predicate Supported(s: ParamSchema)
    decreases s
  {
    || (s.typ.TypeObject? && s.typ.enum.Some?)
    || s.typ == Named("string")
    || s.typ == Named("integer")
    || s.typ == Named("boolean")
    || (s.typ == Named("array") && s.items.Some? && Supported(s.items.value))
  }

  lemma {:induction false} HookArgTypeSupported(s: ParamSchema)
    ensures HookArgType(s).Ok? <==> Supported(s)
    decreases s
  {
    if s.typ == Named("array") && s.items.Some? && !(s.typ.TypeObject?) {
      HookArgTypeSupported(s.items.value);
    }
  }

  /** The first character of a stringified value: a quote, a sign or digit, or the start of a literal. */
  lemma StringifyHead(v: Json)
    ensures Stringify(v)[0] == '"' || Stringify(v)[0] == '-' || IsDigit(Stringify(v)[0])
         || Stringify(v) == "true" || Stringify(v) == "false" || Stringify(v) == "null"
  {
    if v.JInt? && v.i >= 0 {
      assert IsDigit(NatToString(v.i)[0]);
    }
  }

  lemma {:induction false} JoinStarts(parts: seq<string>, sep: string)
    requires |parts| > 0
    ensures StartsWith(Join(parts, sep), parts[0])
  {
    if |parts| > 1 {
      assert Join(parts, sep) == parts[0] + (sep + Join(parts[1..], sep));
    }
  }

  /** No list of alternatives reads as an integer default. */
  lemma AlternativesNotDefault(values: seq<Json>)
    ensures !StartsWith(Alternatives(values), "number = ")
  {
    if |values| > 0 {
      JoinStarts(Map(Stringify, values), " | ");
      StringifyHead(values[0]);
    }
  }

  /** A default value is written into the argument type exactly for integers with a truthy default. */
  lemma DefaultOnlyForIntegers(s: ParamSchema)
    requires HookArgType(s).Ok?
    ensures StartsWith(HookArgType(s).value, "number = ")
        <==> !(s.typ.TypeObject? && s.typ.enum.Some?) && s.typ == Named("integer")
             && s.defaultValue.Some? && Truthy(s.defaultValue.value)
  {
    var r := HookArgType(s).value;
    if s.typ.TypeObject? && s.typ.enum.Some? {
      AlternativesNotDefault(s.typ.enum.value);
    } else if s.typ == Named("string") && s.enum.Some? {
      assert r[0] == '(';
    } else if s.typ == Named("array") && s.items.Some? {
      assert r[0] == 'A';
    }
  }

  /** `required === false && schema.default === undefined` */
  predicate Optional(p: Parameter) {
    p.required == Some(false) && p.schema.defaultValue.None?
  }

  /** `parameterToHookArg`: the name, `?` when optional, then the argument type. */
  function HookArg(p: Parameter): (r: Result<string>)
    ensures r.Ok? <==> Supported(p.schema)
    ensures r.Ok? ==> StartsWith(r.value, p.tsName) && |r.value| > |p.tsName|
    ensures r.Ok? ==> (r.value[|p.tsName|] == '?' <==> Optional(p))
    ensures r.Ok? ==> HookArgType(p.schema).Ok? && EndsWith(r.value, ": " + HookArgType(p.schema).value)
  {
    HookArgTypeSupported(p.schema);
    var t :- HookArgType(p.schema);
    var r := p.tsName + (if Optional(p) then "?" else "") + ": " + t;
    assert r[..|p.tsName|] == p.tsName;
    assert r[|r| - |": " + t|..] == ": " + t;
    Ok(r)
  }

  /** `parameterSortFn` */
  function Rank(p: Parameter): (k: nat)
    ensures k <= 2
    ensures k == 0 <==> p.required == Some(true) && p.schema.defaultValue.None?
    ensures k == 1 <==> p.required == Some(true) && p.schema.defaultValue.Some?
  {
    if p.required == Some(true) && p.schema.defaultValue.None? then 0
    else if p.required == Some(true) then 1
    else 2
  }

  /** The comparator `rank(a) - rank(b) <= 0`. */
  predicate RankLe(a: Parameter, b: Parameter) {
    Rank(a) <= Rank(b)
  }

  lemma RankLePreorder()
    ensures TotalPreorder(RankLe)
  {
  }

  /** The sort of `analyzeParameters` orders by rank, permutes, and keeps the input order among equal ranks. */
  lemma SortParameters(ps: seq<Parameter>)
    ensures Sorted(SortBy(ps, RankLe), RankLe)
    ensures multiset(SortBy(ps, RankLe)) == multiset(ps)
    ensures forall k :: Filter(SortBy(ps, RankLe), EquivTo(RankLe, k)) == Filter(ps, EquivTo(RankLe, k))
  {
    RankLePreorder();
    SortBySorted(ps, RankLe);
    forall k ensures Filter(SortBy(ps, RankLe), EquivTo(RankLe, k)) == Filter(ps, EquivTo(RankLe, k)) {
      SortByStable(ps, RankLe, k);
    }
  }

  /** One iteration of the loop of `analyzeParameters`. */
  function Prepare(p: Parameter, inf: Inflector): (r: Result<Parameter>)
    ensures r.Ok? <==> Supported(p.schema)
    ensures r.Ok? ==> (r.value.name == p.name && r.value.location == p.location
                       && r.value.schema == p.schema && r.value.required == p.required)
    ensures r.Ok? ==> r.value.tsName == ToJsIdentifier(p.name, inf) && AllWord(r.value.tsName)
    ensures r.Ok? ==> Ok(r.value.hookArgStr) == HookArg(p.(tsName := ToJsIdentifier(p.name, inf)))
  {
    var named := p.(tsName := ToJsIdentifier(p.name, inf));
    var arg :- HookArg(named);
    Ok(named.(hookArgStr := arg))
  }

  /** A loop whose step may throw: the first error, or every result in order. */
  function TryMap<T, U>(f: T -> Result<U>, s: seq<T>): (r: Result<seq<U>>)
    decreases |s|
  {
    if s == [] then Ok([])
    else
      match TryMap(f, s[..|s| - 1])
      case Err(e) => Err(e)
      case Ok(done) =>
        match f(s[|s| - 1])
        case Err(e) => Err(e)
        case Ok(x) => Ok(done + [x])
  }

  /** The loop succeeds exactly when every step does. */
  lemma {:induction false} TryMapOk<T, U>(f: T -> Result<U>, s: seq<T>)
    ensures TryMap(f, s).Ok? <==> forall i :: 0 <= i < |s| ==> f(s[i]).Ok?
    decreases |s|
  {
    if s != [] {
      var init := s[..|s| - 1];
      TryMapOk(f, init);
      assert forall i :: 0 <= i < |init| ==> init[i] == s[i];
    }
  }

  /** On success the loop has one result per element, in order. */
  /** A loop over the elements a filter keeps succeeds exactly when every kept element's step does. */
  lemma TryMapFilterOk<T, U>(f: T -> Result<U>, s: seq<T>, p: T -> bool)
    ensures TryMap(f, Filter(s, p)).Ok? <==> forall x :: x in s && p(x) ==> f(x).Ok?
  {
    var kept := Filter(s, p);
    TryMapOk(f, kept);
    if TryMap(f, kept).Ok? {
      forall x | x in s && p(x) ensures f(x).Ok? {
        var j :| 0 <= j < |kept| && kept[j] == x;
      }
    }
  }

  lemma {:induction false} TryMapElems<T, U>(f: T -> Result<U>, s: seq<T>)
    requires TryMap(f, s).Ok?
    ensures |TryMap(f, s).value| == |s|
    ensures forall i :: 0 <= i < |s| ==> Ok(TryMap(f, s).value[i]) == f(s[i])
    decreases |s|
  {
    if s != [] {
      var init := s[..|s| - 1];
      TryMapElems(f, init);
      var done := TryMap(f, init).value;
      var r := TryMap(f, s).value;
      assert r == done + [f(s[|s| - 1]).value];
      forall i | 0 <= i < |s| ensures Ok(r[i]) == f(s[i]) {
        if i < |init| {
          assert r[i] == done[i] && init[i] == s[i];
        }
      }
    }
  }

  /** The loop of `analyzeParameters` over a list; the first unsupported schema throws. */
  function PrepareAll(ps: seq<Parameter>, inf: Inflector): Result<seq<Parameter>> {
    TryMap((p: Parameter) => Prepare(p, inf), ps)
  }

  /** The loop succeeds exactly when every parameter schema is supported. */
  lemma PrepareAllOk(ps: seq<Parameter>, inf: Inflector)
    ensures PrepareAll(ps, inf).Ok? <==> forall i :: 0 <= i < |ps| ==> Supported(ps[i].schema)
  {
    TryMapOk((p: Parameter) => Prepare(p, inf), ps);
  }

  /** Preparing each parameter keeps its name, its rank and its schema, and gives it an identifier. */
  lemma PreparedElems(ps: seq<Parameter>, inf: Inflector)
    requires PrepareAll(ps, inf).Ok?
    ensures var r := PrepareAll(ps, inf).value;
      |r| == |ps| &&
      forall i :: 0 <= i < |r| ==>
        r[i].name == ps[i].name && Rank(r[i]) == Rank(ps[i]) && AllWord(r[i].tsName) && Supported(r[i].schema)
  {
    TryMapElems((p: Parameter) => Prepare(p, inf), ps);
  }

  /** After the analysis, the parameters are in rank order and each carries its identifier and argument. */
  lemma PreparedRanked(ps: seq<Parameter>, inf: Inflector)
    requires PrepareAll(SortBy(ps, RankLe), inf).Ok?
    ensures Sorted(PrepareAll(SortBy(ps, RankLe), inf).value, RankLe)
    ensures Map((p: Parameter) => p.name, PrepareAll(SortBy(ps, RankLe), inf).value)
         == Map((p: Parameter) => p.name, SortBy(ps, RankLe))
    ensures forall p :: p in PrepareAll(SortBy(ps, RankLe), inf).value ==> AllWord(p.tsName) && Supported(p.schema)
  {
    var sorted := SortBy(ps, RankLe);
    var r := PrepareAll(sorted, inf).value;
    PreparedElems(sorted, inf);
    SortParameters(ps);
    forall i, j | 0 <= i < j < |r| ensures RankLe(r[i], r[j]) {
      assert RankLe(sorted[i], sorted[j]);
    }
    var name := (p: Parameter) => p.name;
    assert Map(name, r) == Map(name, sorted);
  }

  // ----- hook type, name and description

  datatype HookType = Create | Read | Update | Delete | List

  function HookTypeName(t: HookType): string {
    match t
    case Create => "create"
    case Read => "read"
    case Update => "update"
    case Delete => "delete"
    case List => "list"
  }

  /** `["read", "list"].includes(type)` */
  predicate IsQuery(t: HookType) {
    t == Read || t == List
  }

  /** `buildHookType` */
  function BuildHookType(m: Method, isCollection: bool): (t: HookType)
    ensures t == List <==> m == Get && isCollection
    ensures t == Create <==> m == Post
    ensures t == Update <==> m == Put
    ensures t == HookType.Delete <==> m == Method.Delete
    ensures IsQuery(t) <==> m == Get || m == Patch
  {
    match m
    case Get => if isCollection then List else Read
    case Post => Create
    case Put => Update
    case Delete => HookType.Delete
    case Patch => Read
  }

  /** `[\w-]` */
  predicate IsSegChar(c: char) {
    IsWordChar(c) || c == '-'
  }

  /** Length of the leading run of `[\w-]` characters. */
  function SegRun(s: string): (k: nat)
    ensures k <= |s|
    ensures forall i :: 0 <= i < k ==> IsSegChar(s[i])
    ensures k < |s| ==> !IsSegChar(s[k])
  {
    if |s| > 0 && IsSegChar(s[0]) then 1 + SegRun(s[1..]) else 0
  }

  lemma {:induction false} SegRunOf(a: string, b: string)
    requires forall i :: 0 <= i < |a| ==> IsSegChar(a[i])
    requires |b| > 0 && !IsSegChar(b[0])
    ensures SegRun(a + b) == |a|
  {
    if a != [] {
      assert (a + b)[1..] == a[1..] + b;
      SegRunOf(a[1..], b);
    } else {
      assert a + b == b;
    }
  }

  /**
   * A match of `/\/([\w-]+s)\/\{[\w-]+\}/` at the start of `s`: the captured
   * collection name and the length of the match. Both runs are maximal,
   * because the character after each is not in `[\w-]`.
   */
  function ItemAt(s: string): (r: Option<(string, nat)>)
    ensures r.Some? ==> 0 < r.value.1 <= |s|
  {
    if |s| == 0 || s[0] != '/' then None
    else
      var e := 1 + SegRun(s[1..]);
      if e >= 3 && s[e - 1] == 's' && e + 1 < |s| && s[e] == '/' && s[e + 1] == '{' then
        var f := e + 2 + SegRun(s[e + 2..]);
        if f > e + 2 && f < |s| && s[f] == '}' then Some((s[1..e], f + 1)) else None
      else None
  }

  /** `.replaceAll(/\/([\w-]+s)\/\{[\w-]+\}/g, (_, m) => "/" + singular(m))` */
  function SingularizeItems(s: string, inf: Inflector): string
    decreases |s|
  {
    if s == [] then []
    else
      match ItemAt(s)
      case Some((m, n)) => "/" + Singular(inf, m) + SingularizeItems(s[n..], inf)
      case None => [s[0]] + SingularizeItems(s[1..], inf)
  }

  /** A path without an `{id}` placeholder is left as it is. */
  lemma {:induction false} SingularizeItemsNoParam(s: string, inf: Inflector)
    requires '{' !in s
    ensures SingularizeItems(s, inf) == s
    decreases |s|
  {
    if s != [] {
      assert ItemAt(s).None?;
      SingularizeItemsNoParam(s[1..], inf);
    }
  }

  /** `/foos/{id}` becomes `/foo` (through the inflector), and the scan goes on after it. */
  lemma SingularizeItemsItem(m: string, id: string, rest: string, inf: Inflector)
    requires |m| >= 2 && m[|m| - 1] == 's' && |id| > 0
    requires forall i :: 0 <= i < |m| ==> IsSegChar(m[i])
    requires forall i :: 0 <= i < |id| ==> IsSegChar(id[i])
    ensures SingularizeItems("/" + m + "/{" + id + "}" + rest, inf)
         == "/" + Singular(inf, m) + SingularizeItems(rest, inf)
  {
    var s := "/" + m + "/{" + id + "}" + rest;
    assert s[1..] == m + ("/{" + id + "}" + rest);
    SegRunOf(m, "/{" + id + "}" + rest);
    var e := 1 + |m|;
    assert s[e + 2..] == id + ("}" + rest);
    SegRunOf(id, "}" + rest);
    assert s[1..e] == m;
    assert s[e + 2 + |id| + 1..] == rest;
    assert ItemAt(s) == Some((m, e + 2 + |id| + 1));
  }

  /** Length of the leading run of word characters. */
  function WordRun(s: string): (k: nat)
    ensures k <= |s|
    ensures forall i :: 0 <= i < k ==> IsWordChar(s[i])
    ensures k < |s| ==> !IsWordChar(s[k])
  {
    if |s| > 0 && IsWordChar(s[0]) then 1 + WordRun(s[1..]) else 0
  }

  /** `s.split(/[^\w]+/)`: the pieces between maximal runs of non-word characters. */
  function SplitNonWord(s: string): (r: seq<string>)
    ensures |r| >= 1
    ensures forall i :: 0 <= i < |r| ==> AllWord(r[i])
    decreases |s|
  {
    var k := WordRun(s);
    if k == |s| then [s]
    else
      var e := NonWordRunEnd(s, k);
      assert e > k;
      [s[..k]] + SplitNonWord(s[e..])
  }

  lemma {:induction false} DropNonWordAppend(a: string, b: string)
    ensures DropNonWord(a + b) == DropNonWord(a) + DropNonWord(b)
  {
    if a != [] {
      assert (a + b)[1..] == a[1..] + b;
      DropNonWordAppend(a[1..], b);
    } else {
      assert a + b == b;
    }
  }

  lemma {:induction false} DropNonWordOfNonWord(s: string)
    requires forall i :: 0 <= i < |s| ==> !IsWordChar(s[i])
    ensures DropNonWord(s) == []
  {
    if s != [] {
      DropNonWordOfNonWord(s[1..]);
    }
  }

  /** The pieces of the split, put back together, are the word characters of the input in order. */
  lemma {:induction false} SplitNonWordJoin(s: string)
    ensures Join(SplitNonWord(s), "") == DropNonWord(s)
    decreases |s|
  {
    var k := WordRun(s);
    if k == |s| {
      DropNonWordOfWord(s);
    } else {
      var e := NonWordRunEnd(s, k);
      var w := s[..k];
      var rest := SplitNonWord(s[e..]);
      assert SplitNonWord(s) == [w] + rest;
      assert AllWord(w) by {
        forall i | 0 <= i < |w| ensures IsWordChar(w[i]) {
          assert w[i] == s[i];
        }
      }
      SplitNonWordJoin(s[e..]);
      DropNonWordAround(s, k, e);
      JoinCons(w, rest, "");
    }
  }

  /** Dropping the non-word characters keeps a leading word and drops the run of non-word characters after it. */
  lemma {:induction false} DropNonWordAround(s: string, k: nat, e: nat)
    requires k <= e <= |s| && AllWord(s[..k])
    requires forall i :: k <= i < e ==> !IsWordChar(s[i])
    ensures DropNonWord(s) == s[..k] + DropNonWord(s[e..])
    decreases e
  {
    if e > 0 {
      var t := s[1..];
      assert t[e - 1..] == s[e..];
      if k > 0 {
        assert IsWordChar(s[..k][0]);
        assert t[..k - 1] == s[..k][1..];
        DropNonWordAround(t, k - 1, e - 1);
        assert s[..k] == [s[0]] + t[..k - 1];
      } else {
        DropNonWordAround(t, 0, e - 1);
      }
    }
  }

  /** `nameFromPath` */
  function PathName(path: string, inf: Inflector): string {
    Join(Map(PascalCase, SplitNonWord(SingularizeItems(path, inf))), "")
  }

  /** `buildHookName`: `use`, the method, the path's name, then `Query` or `Mutation`. */
  function BuildHookName(path: string, m: Method, t: HookType, inf: Inflector): (r: string)
    ensures StartsWith(r, "use" + UcFirst(MethodName(m)))
    ensures EndsWith(r, "Query") <==> IsQuery(t)
    ensures EndsWith(r, "Mutation") <==> !IsQuery(t)
  {
    var name := PathName(path, inf);
    var middle := if m == Post then Singular(inf, name) else name;
    var head := "use" + UcFirst(MethodName(m));
    var tail := if IsQuery(t) then "Query" else "Mutation";
    var r := head + middle + tail;
    assert r[..|head|] == head;
    assert r[|r| - |tail|..] == tail;
    assert r[|r| - 1] == (if IsQuery(t) then 'y' else 'n');
    r
  }

  datatype HookInfo = HookInfo(typ: HookType, name: string, desc: string)

  /** `buildHookInfo`: the description is the summary, else the description, else a generated sentence. */
  function BuildHookInfo(m: Method, path: string, summary: Option<string>, description: Option<string>,
                         isCollection: bool, inf: Inflector): (h: HookInfo)
    ensures h.typ == BuildHookType(m, isCollection)
    ensures h.name == BuildHookName(path, m, h.typ, inf)
    ensures h.desc != ""
    ensures Present(summary) ==> h.desc == summary.value
    ensures !Present(summary) && Present(description) ==> h.desc == description.value
    ensures !Present(summary) && !Present(description) ==>
      StartsWith(h.desc, HookTypeName(h.typ) + " for the ") && EndsWith(h.desc, " endpoint")
  {
    var t := BuildHookType(m, isCollection);
    var head := HookTypeName(t) + " for the ";
    var tail := " endpoint";
    var generated := head + UpperStr(MethodName(m)) + " " + path + tail;
    assert generated[..|head|] == head;
    assert generated[|generated| - |tail|..] == tail;
    var desc := if Present(summary) then summary.value
                else if Present(description) then description.value
                else generated;
    HookInfo(t, BuildHookName(path, m, t, inf), desc)
  }

  // ----- request and response bodies

  /** A body schema, with the `type` of its `properties["hydra:member"]`. */
  datatype BodySchema = BodySchema(def: PropDef, memberType: TypeField)

  datatype MediaType = MediaType(schema: Option<BodySchema>)

  /** A request body or a response. */
  datatype Body = Body(description: string, content: Option<map<string, MediaType>>)

  const LdJson := "application/ld+json"

  /** `content?.["application/ld+json"]?.schema` */
  function LdSchema(content: Option<map<string, MediaType>>): Option<BodySchema> {
    if content.Some? && LdJson in content.value then content.value[LdJson].schema else None
  }

  /**
   * `isCollection` as written: only the first access is optional, so a 200
   * response without `content`, without an ld+json entry or without a schema
   * throws a `TypeError`.
   */
  function IsCollectionAsWritten(responses: map<string, Body>): (r: Result<bool>)
    ensures r.Err? <==> "200" in responses && LdSchema(responses["200"].content).None?
  {
    if "200" !in responses then Ok(false)
    else
      var content := responses["200"].content;
      if content.None? || LdJson !in content.value then Err("TypeError")
      else
        match content.value[LdJson].schema
        case None => Err("TypeError")
        case Some(b) => Ok(b.memberType == One(TArray))
  }

  /** `isCollection` with every access optional, as `analyzeResponseBody` reads the same path. */
  function IsCollection(responses: map<string, Body>): (r: bool)
    ensures r <==> "200" in responses && LdSchema(responses["200"].content).Some?
                   && LdSchema(responses["200"].content).value.memberType == One(TArray)
  {
    if "200" in responses then
      match LdSchema(responses["200"].content)
      case Some(b) => b.memberType == One(TArray)
      case None => false
    else false
  }

  /** Where the code as written does not throw, the corrected test agrees with it. */
  lemma IsCollectionAgrees(responses: map<string, Body>)
    ensures IsCollectionAsWritten(responses).Ok? ==> IsCollectionAsWritten(responses).value == IsCollection(responses)
  {
  }

  /** A plain 200 response (no content) makes the code as written throw before the response is analysed. */
  lemma IsCollectionThrowsOnPlainResponse()
    ensures IsCollectionAsWritten(map["200" := Body("OK", None)]) == Err("TypeError")
    ensures !IsCollection(map["200" := Body("OK", None)])
  {
  }

  const NoLdJsonReason :=
    "No application/ld+json schema found for this endpoint's request body, \nI can't generate it properly (yet)!\nCode provided below is probably buggy."

  /** The name of the schema `analyzeOpenApiSchema` registers for a body schema. */
  function SchemaNameFor(b: BodySchema, description: string): Result<string> {
    BuildSchemaName(Unwrap(b.def, description).0.ref)
  }

  /** What `analyzeRequestBody` leaves in `requestSchema` and `cantGenerateReason`. */
  predicate RequestOutcome(body: Option<Body>, schema0: Option<string>, reason0: Option<string>,
                           schema: Option<string>, reason: Option<string>)
  {
    if body.None? then schema == schema0 && reason == reason0
    else
      match LdSchema(body.value.content)
      case None => schema == schema0 && reason == Some(NoLdJsonReason)
      case Some(b) => schema.Some? && Ok(schema.value) == SchemaNameFor(b, body.value.description) && reason == reason0
  }

  /** What `analyzeResponseBody` leaves in `responseSchema`. */
  predicate ResponseOutcome(responses: map<string, Body>, schema0: Option<string>, schema: Option<string>) {
    if "200" !in responses then schema == schema0
    else
      match LdSchema(responses["200"].content)
      case None => schema == schema0
      case Some(b) => schema.Some? && Ok(schema.value) == SchemaNameFor(b, responses["200"].description)
  }

  /** What `analyzeRequestBody` and then `analyzeResponseBody` leave in the schema fields. */
  predicate BodiesOutcome(body: Option<Body>, responses: map<string, Body>,
                          request0: Option<string>, reason0: Option<string>, response0: Option<string>,
                          request: Option<string>, reason: Option<string>, response: Option<string>)
  {
    RequestOutcome(body, request0, reason0, request, reason) && ResponseOutcome(responses, response0, response)
  }

  /** `operation.tags[0]` */
  function FirstTag(tags: seq<string>): Option<string> {
    if |tags| > 0 then Some(tags[0]) else None
  }

  /** What `analyzeParameters` leaves in `parameters`. */
  function AnalyzedParameters(ps: Option<seq<Parameter>>, inf: Inflector): Result<Option<seq<Parameter>>> {
    if ps.None? then Ok(None)
    else
      match PrepareAll(SortBy(ps.value, RankLe), inf)
      case Ok(r) => Ok(Some(r))
      case Err(e) => Err(e)
  }

  /** The fields of an analysed operation that the repository generator reads. */
  datatype OpView = OpView(
    index: nat,
    operationId: string,
    httpMethod: Method,
    path: string,
    entityName: Option<string>,
    parameters: Option<seq<Parameter>>,
    requestSchema: Option<string>,
    responseSchema: Option<string>,
    hook: Option<HookInfo>,
    cantGenerateReason: Option<string>)

  /**
   * An endpoint of the document. The constants are read from the document;
   * the variables are written by the analysis (and `queryKey` by the
   * repository generator). Schemas are referred to by their registry name,
   * and `index` identifies the operation as a key of the import registry.
   */
  class Operation {
    const index: nat
    const operationId: string
    const httpMethod: Method
    const path: string
    const summary: Option<string>
    const description: Option<string>
    const tags: seq<string>
    const requestBody: Option<Body>
    const responses: map<string, Body>
    var parameters: Option<seq<Parameter>>
    var entityName: Option<string>
    var isCollection: bool
    var cantGenerateReason: Option<string>
    var requestSchema: Option<string>
    var responseSchema: Option<string>
    var hook: Option<HookInfo>
    var queryKey: seq<string>

    constructor (index: nat, operationId: string, httpMethod: Method, path: string,
                 summary: Option<string>, description: Option<string>, tags: seq<string>,
                 parameters: Option<seq<Parameter>>, requestBody: Option<Body>, responses: map<string, Body>)
      ensures this.index == index && this.operationId == operationId && this.httpMethod == httpMethod
      ensures this.path == path && this.summary == summary && this.description == description && this.tags == tags
      ensures this.parameters == parameters && this.requestBody == requestBody && this.responses == responses
      ensures entityName.None? && !isCollection && cantGenerateReason.None?
      ensures requestSchema.None? && responseSchema.None? && hook.None? && queryKey == []
    {
      this.index := index;
      this.operationId := operationId;
      this.httpMethod := httpMethod;
      this.path := path;
      this.summary := summary;
      this.description := description;
      this.tags := tags;
      this.parameters := parameters;
      this.requestBody := requestBody;
      this.responses := responses;
      entityName := None;
      isCollection := false;
      cantGenerateReason := None;
      requestSchema := None;
      responseSchema := None;
      hook := None;
      queryKey := [];
    }

    /** What the repository generator reads; `queryKey` is not part of it. */
    function View(): OpView
      reads this`entityName, this`parameters, this`requestSchema, this`responseSchema, this`hook, this`cantGenerateReason
    {
      OpView(index, operationId, httpMethod, path, entityName, parameters, requestSchema, responseSchema, hook, cantGenerateReason)
    }

    /** `analyzeParameters`: sorts the parameters by rank, then names and types each in turn. */
    method AnalyzeParameters(inf: Inflector) returns (r: Result<()>)
      modifies this`parameters
      ensures r.Ok? ==> AnalyzedParameters(old(parameters), inf) == Ok(parameters)
      ensures r.Err? ==> AnalyzedParameters(old(parameters), inf).Err?
    {
      if parameters.None? {
        return Ok(());
      }
      var sorted := SortBy(parameters.value, RankLe);
      parameters := Some(sorted);
      r := PrepareEach(sorted, inf);
    }

    /** The `for` loop of `analyzeParameters`: each parameter gets its `tsName`, then its `hookArgStr`. */
    method PrepareEach(sorted: seq<Parameter>, inf: Inflector) returns (r: Result<()>)
      requires parameters == Some(sorted)
      modifies this`parameters
      ensures r.Ok? <==> PrepareAll(sorted, inf).Ok?
      ensures r.Ok? ==> parameters == Some(PrepareAll(sorted, inf).value)
    {
      var done: seq<Parameter> := [];
      var i := 0;
      assert done + sorted[i..] == sorted;
      while i < |sorted|
        invariant 0 <= i <= |sorted|
        invariant PrepareAll(sorted[..i], inf) == Ok(done)
        invariant parameters == Some(done + sorted[i..])
      {
        var p := sorted[i].(tsName := ToJsIdentifier(sorted[i].name, inf));
        parameters := Some(done + [p] + sorted[i + 1..]);
        var arg := HookArg(p);
        assert sorted[..i + 1][..i] == sorted[..i];
        if arg.Err? {
          assert PrepareAll(sorted, inf).Err? by {
            PrepareAllOk(sorted, inf);
          }
          return Err(arg.error);
        }
        p := p.(hookArgStr := arg.value);
        done := done + [p];
        parameters := Some(done + sorted[i + 1..]);
        i := i + 1;
      }
      assert sorted[..i] == sorted;
      assert done + sorted[i..] == done;
      r := Ok(());
    }

    /** `analyzeRequestBody` */
    method AnalyzeRequestBody(ctx: Context) returns (r: Result<()>)
      requires ctx.Valid() && ctx.Complete()
      modifies this`requestSchema, this`cantGenerateReason, ctx, ctx.imp
      ensures ctx.Valid() && Grows(old(ctx.schemasByName), ctx.schemasByName)
      ensures r.Ok? ==> ctx.Complete()
      ensures r.Ok? ==> RequestOutcome(requestBody, old(requestSchema), old(cantGenerateReason), requestSchema, cantGenerateReason)
      ensures r.Ok? && requestSchema.Some? ==> requestSchema.value in ctx.schemasByName || requestSchema == old(requestSchema)
      ensures requestBody.None? || LdSchema(requestBody.value.content).None? ==> r.Ok?
    {
      if requestBody.None? {
        return Ok(());
      }
      var body := requestBody.value;
      var schema := LdSchema(body.content);
      if schema.None? {
        cantGenerateReason := Some(NoLdJsonReason);
        return Ok(());
      }
      var name := ctx.AnalyzeRoot(schema.value.def, body.description);
      if name.Err? {
        return Err(name.error);
      }
      requestSchema := Some(name.value);
      r := Ok(());
    }

    /** `analyzeResponseBody`: only the 200 response is read; a missing schema is no error. */
    method AnalyzeResponseBody(ctx: Context) returns (r: Result<()>)
      requires ctx.Valid() && ctx.Complete()
      modifies this`responseSchema, ctx, ctx.imp
      ensures ctx.Valid() && Grows(old(ctx.schemasByName), ctx.schemasByName)
      ensures r.Ok? ==> ctx.Complete()
      ensures r.Ok? ==> ResponseOutcome(responses, old(responseSchema), responseSchema)
      ensures r.Ok? && responseSchema.Some? ==> responseSchema.value in ctx.schemasByName || responseSchema == old(responseSchema)
      ensures "200" !in responses || LdSchema(responses["200"].content).None? ==> r.Ok?
    {
      if "200" !in responses {
        return Ok(());
      }
      var body := responses["200"];
      var schema := LdSchema(body.content);
      if schema.None? {
        return Ok(());
      }
      var name := ctx.AnalyzeRoot(schema.value.def, body.description);
      if name.Err? {
        return Err(name.error);
      }
      responseSchema := Some(name.value);
      r := Ok(());
    }

    /** `analyzeOperation`: entity, collection flag, parameters, bodies, then the hook. */
    method Analyze(ctx: Context, inf: Inflector) returns (r: Result<()>)
      requires ctx.Valid() && ctx.Complete()
      modifies this`entityName, this`isCollection, this`parameters, this`requestSchema,
               this`cantGenerateReason, this`responseSchema, this`hook, ctx, ctx.imp
      ensures ctx.Valid() && Grows(old(ctx.schemasByName), ctx.schemasByName)
      ensures r.Ok? ==> ctx.Complete()
      ensures r.Ok? ==> entityName == FirstTag(tags) && isCollection == IsCollection(responses)
      ensures r.Ok? ==> AnalyzedParameters(old(parameters), inf) == Ok(parameters)
      ensures r.Ok? ==> BodiesOutcome(requestBody, responses, old(requestSchema), old(cantGenerateReason), old(responseSchema),
                                      requestSchema, cantGenerateReason, responseSchema)
      ensures r.Ok? ==> hook == Some(BuildHookInfo(httpMethod, path, summary, description, IsCollection(responses), inf))
      ensures AnalyzedParameters(old(parameters), inf).Err? ==> r.Err?
    {
      SetEntity();
      var p := AnalyzeParameters(inf);
      if p.Err? {
        return Err(p.error);
      }
      r := AnalyzeRest(ctx, inf);
    }

    /** The bodies, then the hook. */
    method AnalyzeRest(ctx: Context, inf: Inflector) returns (r: Result<()>)
      requires ctx.Valid() && ctx.Complete()
      modifies this`requestSchema, this`cantGenerateReason, this`responseSchema, this`hook, ctx, ctx.imp
      ensures ctx.Valid() && Grows(old(ctx.schemasByName), ctx.schemasByName)
      ensures r.Ok? ==> ctx.Complete()
      ensures r.Ok? ==> BodiesOutcome(requestBody, responses, old(requestSchema), old(cantGenerateReason), old(responseSchema),
                                      requestSchema, cantGenerateReason, responseSchema)
      ensures r.Ok? ==> hook == Some(BuildHookInfo(httpMethod, path, summary, description, isCollection, inf))
    {
      r := AnalyzeBodies(ctx);
      if r.Ok? {
        SetHook(inf);
      }
    }

    /** `entityName` from the first tag, and the collection flag. */
    method SetEntity()
      modifies this`entityName, this`isCollection
      ensures entityName == FirstTag(tags) && isCollection == IsCollection(responses)
    {
      entityName := FirstTag(tags);
      isCollection := IsCollection(responses);
    }

    /** `operation.hook = buildHookInfo(operation)` */
    method SetHook(inf: Inflector)
      modifies this`hook
      ensures hook == Some(BuildHookInfo(httpMethod, path, summary, description, isCollection, inf))
    {
      hook := Some(BuildHookInfo(httpMethod, path, summary, description, isCollection, inf));
    }

    /** The request body, then the 200 response. */
    method AnalyzeBodies(ctx: Context) returns (r: Result<()>)
      requires ctx.Valid() && ctx.Complete()
      modifies this`requestSchema, this`cantGenerateReason, this`responseSchema, ctx, ctx.imp
      ensures ctx.Valid() && Grows(old(ctx.schemasByName), ctx.schemasByName)
      ensures r.Ok? ==> ctx.Complete()
      ensures r.Ok? ==> BodiesOutcome(requestBody, responses, old(requestSchema), old(cantGenerateReason), old(responseSchema),
                                      requestSchema, cantGenerateReason, responseSchema)
    {
      r := AnalyzeRequestBody(ctx);
      if r.Err? {
        return;
      }
      r := AnalyzeResponseBody(ctx);
    }
  }
}
