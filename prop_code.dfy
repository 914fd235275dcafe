/**
 * Property definitions of the API document and the code generated for them:
 * the Zod validator expression (`zodSchemaPropCode`) and the TypeScript type
 * expression (`typescriptPropCode`) of one property.
 */
module PropCode {
  import opened Wrappers
  import opened Strings
  import opened Seqs
  import opened Utils
  import opened SchemaNames
  import opened Imports

  /**
   * A type name: the six names the generators test for, or any other name
   * (which is never one of the six).
   */
  datatype TypeName = TString | TNull | TBoolean | TInteger | TNumber | TArray | TOther(name: string)

  function NameOf(t: TypeName): string {
    match t
    case TString => "string"
    case TNull => "null"
    case TBoolean => "boolean"
    case TInteger => "integer"
    case TNumber => "number"
    case TArray => "array"
    case TOther(n) => n
  }

  predicate KnownName(s: string) {
    s == "string" || s == "null" || s == "boolean" || s == "integer" || s == "number" || s == "array"
  }

  predicate WellNamed(t: TypeName) {
    t.TOther? ==> !KnownName(t.name)
  }

  /** Reads a type name of the document. */
  function TypeNameOf(s: string): (t: TypeName)
    ensures NameOf(t) == s && WellNamed(t)
  {
    if s == "string" then TString
    else if s == "null" then TNull
    else if s == "boolean" then TBoolean
    else if s == "integer" then TInteger
    else if s == "number" then TNumber
    else if s == "array" then TArray
    else TOther(s)
  }

  /** The `type` field: absent, one type name, or a list of them. */
  datatype TypeField = Absent | One(t: TypeName) | Many(ts: seq<TypeName>)

  /** `propDef.type === name` */
  predicate TypeIs(tf: TypeField, x: TypeName) {
    tf == One(x)
  }

  /**
   * `propDef.type?.includes?.(name)`: a substring test on one name (see
   * `IncludesIsSubstring`), membership on a list.
   */
  predicate TypeIncludes(tf: TypeField, x: TypeName) {
    match tf
    case Absent => false
    case One(t) => t == x || (t.TOther? && Contains(t.name, NameOf(x)))
    case Many(ts) => x in ts
  }

  /**
   * A schema object of the document. `required` and `entityName` are the two
   * fields the resolver writes onto a property's definition; `hydraItems` is
   * `properties["hydra:member"].items`, the one thing read from a nested
   * object's properties.
   */
  /** `anyOf` / `allOf`: absent, or a list of sub-definitions. */
  datatype SubDefs = NoSubDefs | SubDefs(defs: seq<PropDef>)

  datatype PropDef = PropDef(
    required: bool,
    entityName: string,
    ref: Option<string>,
    typ: TypeField,
    format: Option<string>,
    anyOf: SubDefs,
    allOf: SubDefs,
    items: Option<PropDef>,
    hydraItems: Option<PropDef>)

  /** `!!propDef.$ref` */
  predicate HasRef(d: PropDef) {
    d.ref.Some? && d.ref.value != ""
  }

  /** Generated code and the imports it records against its root property definition. */
  datatype Code = Code(text: string, imports: seq<ImportDef>)

  const IriComment := "/* \U{1F517} IRI reference */"

  /** The comment appended to the string validators of IRI references. */
  function IriSuffix(d: PropDef): string {
    if d.format == Some("iri-reference") then IriComment else ""
  }

  function SchemaModule(importPrefix: string, zodName: string): string {
    importPrefix + "/schemas/" + zodName
  }

  /** Every import names a schema module of the output: `<prefix>/schemas/<zod name>`. */
  ghost predicate ZodImports(imports: seq<ImportDef>, importPrefix: string) {
    forall i :: 0 <= i < |imports| ==>
      && imports[i] == ImportDef(imports[i].symbol, SchemaModule(importPrefix, imports[i].symbol), None, false)
      && EndsWith(imports[i].symbol, "Schema")
  }

  /** Every import names the TypeScript type of a schema module of the output. */
  ghost predicate TsImports(imports: seq<ImportDef>, importPrefix: string) {
    forall i :: 0 <= i < |imports| ==>
      imports[i] == ImportDef(imports[i].symbol, SchemaModule(importPrefix, imports[i].symbol + "Schema"), None, false)
  }

  /** `zodSchemaPropCode` */
  function ZodPropCode(propName: string, d: PropDef, importPrefix: string): (r: Result<Code>)
    ensures r.Ok? ==> ZodImports(r.value.imports, importPrefix)
    decreases d, 1
  {
    var iri := IriSuffix(d);
    if propName == "@type" then Ok(Code("z.literal(\"" + d.entityName + "\")", []))
    else if TypeIs(d.typ, TString) && d.required then Ok(Code("z.string()" + iri, []))
    else if TypeIncludes(d.typ, TString) && TypeIncludes(d.typ, TNull) then Ok(Code("z.string().nullable()" + iri, []))
    else if TypeIs(d.typ, TString) && d.format == Some("ulid") then Ok(Code("z.string().ulid()" + iri, []))
    else if TypeIs(d.typ, TString) then Ok(Code("z.string().optional()" + iri, []))
    else if TypeIs(d.typ, TNull) then Ok(Code("z.null()", []))
    else if TypeIncludes(d.typ, TBoolean) && TypeIncludes(d.typ, TNull) then Ok(Code("z.boolean().nullable()", []))
    else if TypeIs(d.typ, TBoolean) then Ok(Code("z.boolean()", []))
    else if TypeIs(d.typ, TNumber) then Ok(Code("z.number()", []))
    else if TypeIncludes(d.typ, TInteger) && TypeIncludes(d.typ, TNull) then Ok(Code("z.number().nullable()", []))
    else if TypeIs(d.typ, TInteger) then Ok(Code("z.number()", []))
    else if d.anyOf.SubDefs? then ZodUnion(propName, d, d.anyOf.defs, importPrefix)
    else if d.allOf.SubDefs? then ZodUnion(propName, d, d.allOf.defs, importPrefix)
    else if TypeIs(d.typ, TArray) then
      if d.items.None? then Err("TypeError")
      else
        match ZodPropCode(propName, d.items.value, importPrefix)
        case Ok(c) => Ok(Code("z.array(" + c.text + ")", c.imports))
        case Err(e) => Err(e)
    else if HasRef(d) then
      match BuildSchemaName(d.ref)
      case Ok(name) =>
        var zodName := name + "Schema";
        Ok(Code("z.lazy(() => " + zodName + ")", [ImportDef(zodName, SchemaModule(importPrefix, zodName), None, false)]))
      case Err(e) => Err(e)
    else Err("Unhandled type")
  }

  /** `z.union([...])` over the sub-definitions `subs` of `d`. */
  function ZodUnion(propName: string, d: PropDef, subs: seq<PropDef>, importPrefix: string): (r: Result<Code>)
    requires forall s :: s in subs ==> s < d
    ensures r.Ok? ==> ZodImports(r.value.imports, importPrefix)
    decreases d, 0
  {
    match ZodAll(propName, d, subs, importPrefix)
    case Ok((texts, imports)) => Ok(Code("z.union([" + Join(texts, ", ") + "])", imports))
    case Err(e) => Err(e)
  }

  /** The codes of a suffix `subs` of the sub-definitions of `d`, left to right. */
  function ZodAll(propName: string, d: PropDef, subs: seq<PropDef>, importPrefix: string): (r: Result<(seq<string>, seq<ImportDef>)>)
    requires forall s :: s in subs ==> s < d
    ensures r.Ok? ==> |r.value.0| == |subs| && ZodImports(r.value.1, importPrefix)
    decreases d, 0, |subs|
  {
    if subs == [] then Ok(([], []))
    else
      assert subs[0] in subs;
      assert forall s :: s in subs[1..] ==> s in subs;
      match ZodPropCode(propName, subs[0], importPrefix)
      case Err(e) => Err(e)
      case Ok(c) =>
        match ZodAll(propName, d, subs[1..], importPrefix)
        case Err(e) => Err(e)
        case Ok((texts, imports)) => Ok(([c.text] + texts, c.imports + imports))
  }

  /** `typescriptPropCode` */
  function TypescriptPropCode(propName: string, d: PropDef, importPrefix: string): (r: Result<Code>)
    ensures r.Ok? ==> TsImports(r.value.imports, importPrefix)
    decreases d, 1
  {
    if d.anyOf.SubDefs? then
      match TsAll(propName, d, d.anyOf.defs, importPrefix)
      case Ok((texts, imports)) => Ok(Code(Join(texts, " | "), imports))
      case Err(e) => Err(e)
    else if TypeIs(d.typ, TArray) then
      if d.items.None? then Err("TypeError")
      else
        match TypescriptPropCode(propName, d.items.value, importPrefix)
        case Ok(c) => Ok(Code("Array<" + c.text + ">", c.imports))
        case Err(e) => Err(e)
    else if TypeIs(d.typ, TNull) then Ok(Code("null", []))
    else if HasRef(d) then
      match BuildSchemaName(d.ref)
      case Ok(name) => Ok(Code(name, [ImportDef(name, SchemaModule(importPrefix, name + "Schema"), None, false)]))
      case Err(e) => Err(e)
    else Err("Unhandled type")
  }

  /** The type expressions of a suffix `subs` of the sub-definitions of `d`, left to right. */
  function TsAll(propName: string, d: PropDef, subs: seq<PropDef>, importPrefix: string): (r: Result<(seq<string>, seq<ImportDef>)>)
    requires forall s :: s in subs ==> s < d
    ensures r.Ok? ==> |r.value.0| == |subs| && TsImports(r.value.1, importPrefix)
    decreases d, 0, |subs|
  {
    if subs == [] then Ok(([], []))
    else
      assert subs[0] in subs;
      assert forall s :: s in subs[1..] ==> s in subs;
      match TypescriptPropCode(propName, subs[0], importPrefix)
      case Err(e) => Err(e)
      case Ok(c) =>
        match TsAll(propName, d, subs[1..], importPrefix)
        case Err(e) => Err(e)
        case Ok((texts, imports)) => Ok(([c.text] + texts, c.imports + imports))
  }

  /** `zodSchemaPropLine`: `<key>: <validator>`. */
  function ZodPropLine(propName: string, d: PropDef, importPrefix: string): (r: Result<Code>)
    ensures r.Ok? <==> ZodPropCode(propName, d, importPrefix).Ok?
    ensures r.Ok? ==> StartsWith(r.value.text, ToJsObjKey(propName) + ": ")
    ensures r.Ok? ==> r.value.imports == ZodPropCode(propName, d, importPrefix).value.imports
  {
    match ZodPropCode(propName, d, importPrefix)
    case Ok(c) =>
      var head := ToJsObjKey(propName) + ": ";
      assert (head + c.text)[..|head|] == head;
      Ok(Code(head + c.text, c.imports))
    case Err(e) => Err(e)
  }

  // ----- properties of the two generators

  /** No `allOf` anywhere in the definition (the TypeScript generator has no case for it). */
  predicate AllOfFree(d: PropDef)
    decreases d
  {
    && d.allOf.NoSubDefs?
    && (d.anyOf.SubDefs? ==> forall s :: s in d.anyOf.defs ==> AllOfFree(s))
    && (d.items.Some? ==> AllOfFree(d.items.value))
  }

  /**
   * Whenever a TypeScript type can be generated for a definition without
   * `allOf`, so can its Zod validator: the Zod generator covers every shape
   * the TypeScript one does.
   */
  lemma {:induction false} ZodCoversTypescript(propName: string, d: PropDef, importPrefix: string)
    requires AllOfFree(d)
    requires TypescriptPropCode(propName, d, importPrefix).Ok?
    ensures ZodPropCode(propName, d, importPrefix).Ok?
    decreases d, 1
  {
    if d.anyOf.SubDefs? {
      ZodAllCoversTsAll(propName, d, d.anyOf.defs, importPrefix);
    } else if TypeIs(d.typ, TArray) {
      ZodCoversTypescript(propName, d.items.value, importPrefix);
    }
  }

  lemma {:induction false} ZodAllCoversTsAll(propName: string, d: PropDef, subs: seq<PropDef>, importPrefix: string)
    requires forall s :: s in subs ==> s < d && AllOfFree(s)
    requires TsAll(propName, d, subs, importPrefix).Ok?
    ensures ZodAll(propName, d, subs, importPrefix).Ok?
    decreases d, 0, |subs|
  {
    if subs != [] {
      assert subs[0] in subs;
      assert forall s :: s in subs[1..] ==> s in subs;
      ZodCoversTypescript(propName, subs[0], importPrefix);
      ZodAllCoversTsAll(propName, d, subs[1..], importPrefix);
    }
  }

  /**
   * For a plain reference the validator and the type come from the same
   * generated module: the Zod schema `<Name>Schema` and the type `<Name>`.
   */
  lemma RefCodesAgree(propName: string, d: PropDef, importPrefix: string, name: string)
    requires propName != "@type"
    requires d.typ == Absent && d.anyOf == NoSubDefs && d.allOf == NoSubDefs && HasRef(d)
    requires BuildSchemaName(d.ref) == Ok(name)
    ensures ZodPropCode(propName, d, importPrefix)
      == Ok(Code("z.lazy(() => " + (name + "Schema") + ")", [ImportDef(name + "Schema", SchemaModule(importPrefix, name + "Schema"), None, false)]))
    ensures TypescriptPropCode(propName, d, importPrefix)
      == Ok(Code(name, [ImportDef(name, SchemaModule(importPrefix, name + "Schema"), None, false)]))
  {
    RefZodCode(propName, d, importPrefix, name);
  }

  lemma RefZodCode(propName: string, d: PropDef, importPrefix: string, name: string)
    requires propName != "@type"
    requires d.typ == Absent && d.anyOf == NoSubDefs && d.allOf == NoSubDefs && HasRef(d)
    requires BuildSchemaName(d.ref) == Ok(name)
    ensures ZodPropCode(propName, d, importPrefix)
      == Ok(Code("z.lazy(() => " + (name + "Schema") + ")", [ImportDef(name + "Schema", SchemaModule(importPrefix, name + "Schema"), None, false)]))
  {
    assert !TypeIs(d.typ, TString) && !TypeIs(d.typ, TNull) && !TypeIs(d.typ, TBoolean);
    assert !TypeIs(d.typ, TNumber) && !TypeIs(d.typ, TInteger) && !TypeIs(d.typ, TArray);
    assert !TypeIncludes(d.typ, TString) && !TypeIncludes(d.typ, TBoolean) && !TypeIncludes(d.typ, TInteger);
  }

  /** The `@type` property always validates the literal entity name. */
  lemma TypePropertyIsLiteral(d: PropDef, importPrefix: string)
    ensures ZodPropCode("@type", d, importPrefix) == Ok(Code("z.literal(\"" + d.entityName + "\")", []))
  {
  }

  /** A `string | null` type is nullable, before the ulid and optional cases. */
  lemma NullableStringFirst(propName: string, d: PropDef, importPrefix: string)
    requires propName != "@type" && d.typ == Many([TString, TNull])
    ensures ZodPropCode(propName, d, importPrefix).Ok?
    ensures ZodPropCode(propName, d, importPrefix).value.text
      == "z.string().nullable()" + IriSuffix(d)
  {
  }

  /**
   * A required string is `z.string()` whatever its format; an optional ulid
   * is `z.string().ulid()`; an optional string of any other format (or none)
   * is `z.string().optional()`, with the IRI comment for `iri-reference`.
   */
  lemma StringCases(propName: string, d: PropDef, importPrefix: string)
    requires propName != "@type" && d.typ == One(TString)
    ensures d.required ==> ZodPropCode(propName, d, importPrefix) == Ok(Code("z.string()" + IriSuffix(d), []))
    ensures !d.required && d.format == Some("ulid") ==> ZodPropCode(propName, d, importPrefix) == Ok(Code("z.string().ulid()", []))
    ensures !d.required && d.format != Some("ulid") ==> ZodPropCode(propName, d, importPrefix) == Ok(Code("z.string().optional()" + IriSuffix(d), []))
  {
    assert "ulid" != "iri-reference";
    assert "z.string().ulid()" + "" == "z.string().ulid()";
  }

  lemma {:induction false} NotContained(s: string, sub: string, c: char)
    requires c in sub && c !in s
    ensures !Contains(s, sub)
    decreases |s|
  {
    if |s| > 0 {
      NotContained(s[1..], sub, c);
    }
  }

  /** Integers are numbers, nullable when `null` is listed. */
  lemma IntegerCases(propName: string, d: PropDef, importPrefix: string)
    requires propName != "@type"
    ensures d.typ == One(TInteger) ==> ZodPropCode(propName, d, importPrefix) == Ok(Code("z.number()", []))
    ensures d.typ == Many([TInteger, TNull]) ==> ZodPropCode(propName, d, importPrefix) == Ok(Code("z.number().nullable()", []))
  {
  }

  lemma ObjectIncludesNone()
    ensures !TypeIncludes(One(TOther("object")), TString)
    ensures !TypeIncludes(One(TOther("object")), TBoolean)
    ensures !TypeIncludes(One(TOther("object")), TInteger)
    ensures !TypeIncludes(One(TOther("object")), TNull)
  {
    assert !TypeIncludes(One(TOther("object")), TString) by { OtherExcludes("object", TString, 's'); }
    assert !TypeIncludes(One(TOther("object")), TBoolean) by { OtherExcludes("object", TBoolean, 'a'); }
    assert !TypeIncludes(One(TOther("object")), TInteger) by { OtherExcludes("object", TInteger, 'i'); }
    OtherExcludes("object", TNull, 'n');
  }

  /** A name outside the six known ones includes a known name only when it has all its letters. */
  lemma OtherExcludes(n: string, x: TypeName, c: char)
    requires !x.TOther? && c in NameOf(x) && c !in n
    ensures !TypeIncludes(One(TOther(n)), x)
  {
    NotContained(n, NameOf(x), c);
  }

  /** An object type with neither sub-definitions nor a reference has no code in either generator. */
  lemma ObjectUnhandled(propName: string, d: PropDef, importPrefix: string)
    requires propName != "@type"
    requires d.typ == One(TOther("object")) && d.anyOf == NoSubDefs && d.allOf == NoSubDefs && !HasRef(d)
    ensures ZodPropCode(propName, d, importPrefix) == Err("Unhandled type")
    ensures TypescriptPropCode(propName, d, importPrefix) == Err("Unhandled type")
  {
    ObjectIncludesNone();
  }

  lemma ContainsSelf(s: string)
    ensures Contains(s, s)
  {
    assert s[..|s|] == s;
  }

  /** No one of the six names is a substring of another. */
  lemma KnownNamesApart(t: TypeName, x: TypeName)
    requires !t.TOther? && !x.TOther? && t != x
    ensures !Contains(NameOf(t), NameOf(x))
  {
    match x
    case TString => NotContained(NameOf(t), "string", 's');
    case TNull => NullApart(t);
    case TBoolean => BooleanApart(t);
    case TInteger => IntegerApart(t);
    case TNumber => NumberApart(t);
    case TArray => ArrayApart(t);
  }

  lemma NullApart(t: TypeName)
    requires !t.TOther? && t != TNull
    ensures !Contains(NameOf(t), "null")
  {
    NotContained(NameOf(t), "null", if t == TNumber then 'l' else 'u');
  }

  lemma BooleanApart(t: TypeName)
    requires !t.TOther? && t != TBoolean
    ensures !Contains(NameOf(t), "boolean")
  {
    NotContained(NameOf(t), "boolean", if t == TNumber then 'o' else 'b');
  }

  lemma IntegerApart(t: TypeName)
    requires !t.TOther? && t != TInteger
    ensures !Contains(NameOf(t), "integer")
  {
    NotContained(NameOf(t), "integer", if t == TString then 'e' else 'i');
  }

  lemma NumberApart(t: TypeName)
    requires !t.TOther? && t != TNumber
    ensures !Contains(NameOf(t), "number")
  {
    NotContained(NameOf(t), "number", if t == TArray then 'n' else if t == TNull then 'm' else 'u');
  }

  lemma ArrayApart(t: TypeName)
    requires !t.TOther? && t != TArray
    ensures !Contains(NameOf(t), "array")
  {
    NotContained(NameOf(t), "array", if t == TBoolean then 'r' else 'a');
  }


  /**
   * The encoding of single type names agrees with JavaScript's substring test
   * `type.includes(name)` on the name string.
   */
  lemma IncludesIsSubstring(t: TypeName, x: TypeName)
    requires WellNamed(t) && !x.TOther?
    ensures TypeIncludes(One(t), x) <==> Contains(NameOf(t), NameOf(x))
  {
    if t == x {
      ContainsSelf(NameOf(t));
    } else if !t.TOther? {
      KnownNamesApart(t, x);
    }
  }

  /** The other single types: numbers, booleans and `null`, none with the IRI comment. */
  lemma ScalarCases(propName: string, d: PropDef, importPrefix: string)
    requires propName != "@type"
    ensures d.typ == One(TNumber) ==> ZodPropCode(propName, d, importPrefix) == Ok(Code("z.number()", []))
    ensures d.typ == One(TBoolean) ==> ZodPropCode(propName, d, importPrefix) == Ok(Code("z.boolean()", []))
    ensures d.typ == Many([TBoolean, TNull]) ==> ZodPropCode(propName, d, importPrefix) == Ok(Code("z.boolean().nullable()", []))
    ensures d.typ == One(TNull) ==> ZodPropCode(propName, d, importPrefix) == Ok(Code("z.null()", []))
  {
  }

  /** On success, the codes of the sub-definitions are those of each one, in order. */
  lemma {:induction false} ZodAllElems(propName: string, d: PropDef, subs: seq<PropDef>, importPrefix: string)
    requires forall s :: s in subs ==> s < d
    requires ZodAll(propName, d, subs, importPrefix).Ok?
    ensures forall i :: 0 <= i < |subs| ==>
      ZodPropCode(propName, subs[i], importPrefix).Ok?
      && ZodAll(propName, d, subs, importPrefix).value.0[i] == ZodPropCode(propName, subs[i], importPrefix).value.text
    decreases |subs|
  {
    if subs != [] {
      assert subs[0] in subs;
      assert forall s :: s in subs[1..] ==> s in subs;
      ZodAllElems(propName, d, subs[1..], importPrefix);
      forall i | 1 <= i < |subs|
        ensures subs[i] == subs[1..][i - 1]
      {
      }
    }
  }

  /**
   * Without a type, `anyOf` is tried before `allOf`; either gives a union of
   * the children's validators, in order.
   */
  lemma UnionOfChildren(propName: string, d: PropDef, importPrefix: string)
    requires propName != "@type" && d.typ == Absent && (d.anyOf.SubDefs? || d.allOf.SubDefs?)
    requires ZodPropCode(propName, d, importPrefix).Ok?
    ensures var subs := if d.anyOf.SubDefs? then d.anyOf.defs else d.allOf.defs;
      && ZodAll(propName, d, subs, importPrefix).Ok?
      && ZodPropCode(propName, d, importPrefix).value.text
         == "z.union([" + Join(ZodAll(propName, d, subs, importPrefix).value.0, ", ") + "])"
      && |ZodAll(propName, d, subs, importPrefix).value.0| == |subs|
      && forall i :: 0 <= i < |subs| ==>
           ZodPropCode(propName, subs[i], importPrefix).Ok?
           && ZodAll(propName, d, subs, importPrefix).value.0[i] == ZodPropCode(propName, subs[i], importPrefix).value.text
  {
    var subs := if d.anyOf.SubDefs? then d.anyOf.defs else d.allOf.defs;
    assert !TypeIncludes(d.typ, TString) && !TypeIncludes(d.typ, TBoolean) && !TypeIncludes(d.typ, TInteger);
    assert ZodPropCode(propName, d, importPrefix) == ZodUnion(propName, d, subs, importPrefix);
    ZodAllElems(propName, d, subs, importPrefix);
  }

  /** An array wraps the code of its items, in both generators. */
  lemma ArrayWrapsItems(propName: string, d: PropDef, item: PropDef, importPrefix: string)
    requires propName != "@type"
    requires d.typ == One(TArray) && d.anyOf == NoSubDefs && d.allOf == NoSubDefs && d.items == Some(item)
    ensures ZodPropCode(propName, d, importPrefix).Ok? <==> ZodPropCode(propName, item, importPrefix).Ok?
    ensures ZodPropCode(propName, d, importPrefix).Ok? ==>
      ZodPropCode(propName, d, importPrefix).value.text == "z.array(" + ZodPropCode(propName, item, importPrefix).value.text + ")"
    ensures TypescriptPropCode(propName, d, importPrefix).Ok? <==> TypescriptPropCode(propName, item, importPrefix).Ok?
    ensures TypescriptPropCode(propName, d, importPrefix).Ok? ==>
      TypescriptPropCode(propName, d, importPrefix).value.text == "Array<" + TypescriptPropCode(propName, item, importPrefix).value.text + ">"
  {
    assert !TypeIncludes(d.typ, TString) && !TypeIncludes(d.typ, TBoolean) && !TypeIncludes(d.typ, TInteger);
  }

  /** A plain string has a validator but no TypeScript type: the type generator has no string case. */
  lemma StringHasNoType(propName: string, d: PropDef, importPrefix: string)
    requires d.typ == One(TString) && d.anyOf == NoSubDefs && !HasRef(d)
    ensures TypescriptPropCode(propName, d, importPrefix) == Err("Unhandled type")
    ensures ZodPropCode(propName, d, importPrefix).Ok?
  {
  }
}
