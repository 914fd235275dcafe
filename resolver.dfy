/**
 * The schema graph resolver: starting from a schema object of the API
 * document, follows `$ref` references through the document, registers one
 * schema per derived name, generates each property's Zod line, and marks a
 * property recursive when its schema is reached again through that property.
 */
module Resolver {
  import opened Wrappers
  import opened Strings
  import opened Seqs
  import opened Utils
  import opened SchemaNames
  import opened Imports
  import opened PropCode

  /** The owners imports are recorded against. */
  datatype ImportKey =
    | SchemaKey(name: string)
    | PropKey(defPath: seq<string>, prop: string)
    | OperationKey(index: nat)

  /** A schema definition of the document: its properties in order and its `required` list. */
  datatype RawSchema = RawSchema(properties: seq<(string, PropDef)>, required: Option<seq<string>>)

  datatype Property = Property(name: string, propDef: PropDef, key: ImportKey, zodPropCode: string, isRecursive: bool)

  datatype Schema = Schema(
    name: string,
    zodName: string,
    description: string,
    ref: string,
    propOrder: seq<string>,
    props: map<string, Property>,
    hasRecursiveProp: bool)

  /** The document path of a reference: `$ref.replace(/^#/, "").split("/").filter(Boolean)`. */
  function Segments(ref: string): seq<string> {
    Filter(Split(if |ref| > 0 && ref[0] == '#' then ref[1..] else ref, '/'), NonEmpty)
  }

  /** The definition of a property as the resolver completes it before use. */
  function Fixup(raw: RawSchema, propName: string, propDef: PropDef, entityName: string): (d: PropDef)
    ensures d.required <==> raw.required.None? || propName in raw.required.value
    ensures d.entityName == entityName
    ensures d == propDef.(required := d.required, entityName := entityName)
  {
    propDef.(required := raw.required.None? || propName in raw.required.value, entityName := entityName)
  }

  /** The sub-definitions analysed with a property: itself, its items and its `anyOf` members that are references. */
  function SubsToAnalyze(d: PropDef): (r: seq<PropDef>)
    ensures forall s :: s in r ==> HasRef(s)
    ensures HasRef(d) ==> d in r
  {
    Filter([d] + (if d.items.Some? then [d.items.value] else []) + (if d.anyOf.SubDefs? then d.anyOf.defs else []), HasRef)
  }

  /** A collection schema is analysed through its `hydra:member` items, each level prefixing the description. */
  function Unwrap(s: PropDef, description: string): (r: (PropDef, string))
    ensures r.0.hydraItems.None?
    decreases s
  {
    if s.hydraItems.Some? then Unwrap(s.hydraItems.value, "Item for " + description) else (s, description)
  }

  // ----- the finite universe that bounds the recursion

  /** Every reference in a definition, including those of its items, `hydra:member` items and `anyOf` members. */
  ghost function DeepRefs(d: PropDef): set<string>
    decreases d
  {
    (if HasRef(d) then {d.ref.value} else {})
      + (if d.items.Some? then DeepRefs(d.items.value) else {})
      + (if d.hydraItems.Some? then DeepRefs(d.hydraItems.value) else {})
      + (set s, r | d.anyOf.SubDefs? && s in d.anyOf.defs && r in DeepRefs(s) :: r)
  }

  ghost function DocRefs(doc: map<seq<string>, RawSchema>): set<string> {
    set segs, i, r | segs in doc && 0 <= i < |doc[segs].properties| && r in DeepRefs(doc[segs].properties[i].1) :: r
  }

  ghost function DocPropNames(doc: map<seq<string>, RawSchema>): set<string> {
    set segs, i | segs in doc && 0 <= i < |doc[segs].properties| :: doc[segs].properties[i].0
  }

  ghost function NamesOf(refs: set<string>): set<string> {
    set r | r in refs && BuildSchemaName(Some(r)).Ok? :: BuildSchemaName(Some(r)).value
  }

  /** Every `<schema>.<property>` key the recursion guard can ever hold. */
  ghost function PathKeys(refs: set<string>, doc: map<seq<string>, RawSchema>): set<string> {
    set n, p | n in NamesOf(refs) && p in DocPropNames(doc) :: n + "." + p
  }

  lemma SubRefs(d: PropDef)
    ensures forall s :: s in SubsToAnalyze(d) ==> DeepRefs(s) <= DeepRefs(d)
  {
    forall s | s in SubsToAnalyze(d) ensures DeepRefs(s) <= DeepRefs(d) {
      if s != d && !(d.items.Some? && s == d.items.value) {
        assert d.anyOf.SubDefs? && s in d.anyOf.defs;
      }
    }
  }

  lemma NameSplit(a: string, b: string, c: string, d: string)
    requires '.' !in a && '.' !in c && a + "." + b == c + "." + d
    ensures a == c && b == d
  {
    var x := a + "." + b;
    assert x[..|a|] == a && x[..|c|] == c;
    IndexOfAt(x, |a|, '.');
    IndexOfAt(x, |c|, '.');
    assert x[|a| + 1..] == b && x[|c| + 1..] == d;
  }

  lemma Shrinks(u: set<string>, path: seq<string>, k: string)
    requires k in u && k !in path
    ensures |u - set x | x in path + [k]| < |u - set x | x in path|
  {
    var before := u - set x | x in path;
    var after := u - set x | x in path + [k];
    assert after == before - {k};
  }

  // ----- invariants of the registry

  /** A property-line generator; the registry is built with `ZodLines` of its import prefix. */
  type LineGen = (string, PropDef) -> Result<Code>

  function ZodLines(importPrefix: string): LineGen {
    (propName: string, d: PropDef) => ZodPropLine(propName, d, importPrefix)
  }

  /** `text` is the Zod line generated for the property. */
  predicate IsZodLine(gen: LineGen, propName: string, d: PropDef, text: string) {
    gen(propName, d).Ok? && gen(propName, d).value.text == text
  }

  ghost predicate PropsValid(s: Schema, gen: LineGen) {
    && (forall p :: p in s.propOrder <==> p in s.props)
    && (forall i, j :: 0 <= i < j < |s.propOrder| ==> s.propOrder[i] != s.propOrder[j])
    && "@context" !in s.props
    && forall p :: p in s.props ==>
      && s.props[p].name == p
      && (s.props[p].isRecursive ==> s.hasRecursiveProp)
      && (s.props[p].zodPropCode == "" || IsZodLine(gen, p, s.props[p].propDef, s.props[p].zodPropCode))
  }

  ghost predicate SchemaValid(n: string, s: Schema, gen: LineGen) {
    s.name == n && s.zodName == n + "Schema" && IsWord(n) && PropsValid(s, gen)
  }

  /** Schemas and their properties are never removed, and a schema's identity never changes. */
  ghost predicate Grows(a: map<string, Schema>, b: map<string, Schema>) {
    forall n :: n in a ==>
      && n in b
      && b[n].name == a[n].name && b[n].zodName == a[n].zodName
      && b[n].description == a[n].description && b[n].ref == a[n].ref
      && a[n].props.Keys <= b[n].props.Keys
      && (a[n].hasRecursiveProp ==> b[n].hasRecursiveProp)
  }

  lemma GrowsTrans(a: map<string, Schema>, b: map<string, Schema>, c: map<string, Schema>)
    requires Grows(a, b) && Grows(b, c)
    ensures Grows(a, c)
  {
  }

  ghost predicate RegistryValid(m: map<string, Schema>, gen: LineGen) {
    forall n :: n in m ==> SchemaValid(n, m[n], gen)
  }

  /** Each key of the recursion guard names a property under construction. */
  ghost predicate FramesOk(m: map<string, Schema>, path: seq<string>, frames: seq<(string, string)>) {
    && |path| == |frames|
    && forall i :: 0 <= i < |frames| ==>
      && path[i] == frames[i].0 + "." + frames[i].1
      && frames[i].0 in m
      && frames[i].1 in m[frames[i].0].props
  }

  /** Only properties under construction still lack their Zod line. */
  ghost predicate Pending(m: map<string, Schema>, frames: seq<(string, string)>) {
    forall n, p :: n in m && p in m[n].props && m[n].props[p].zodPropCode == "" ==> (n, p) in frames
  }

  /** The properties under construction change at most in their recursion mark. */
  ghost predicate FramesKept(a: map<string, Schema>, b: map<string, Schema>, frames: seq<(string, string)>) {
    forall i :: 0 <= i < |frames| && frames[i].0 in a && frames[i].1 in a[frames[i].0].props ==>
      && frames[i].0 in b && frames[i].1 in b[frames[i].0].props
      && b[frames[i].0].props[frames[i].1].(isRecursive := false) == a[frames[i].0].props[frames[i].1].(isRecursive := false)
  }

  lemma FramesOkGrows(a: map<string, Schema>, b: map<string, Schema>, path: seq<string>, frames: seq<(string, string)>)
    requires FramesOk(a, path, frames) && Grows(a, b)
    ensures FramesOk(b, path, frames)
  {
  }

  lemma FramesKeptTrans(a: map<string, Schema>, b: map<string, Schema>, c: map<string, Schema>, frames: seq<(string, string)>)
    requires FramesKept(a, b, frames) && FramesKept(b, c, frames)
    ensures FramesKept(a, c, frames)
  {
  }

  // ----- the registry updates, one per assignment of the source

  /** `context.schemasByName[name] ??= {...}`: a placeholder unless the name is registered. */
  function Register(m: map<string, Schema>, name: string, description: string, ref: string): (r: map<string, Schema>)
    ensures name in r && r.Keys == m.Keys + {name}
    ensures name in m ==> r == m
    ensures name !in m ==> r[name] == Schema(name, name + "Schema", description, ref, [], map[], false)
  {
    if name in m then m else m[name := Schema(name, name + "Schema", description, ref, [], map[], false)]
  }

  /** `parentSchema.propertiesByName[propName] = property`: replaces the entry, or appends it to the order. */
  function PutProperty(m: map<string, Schema>, n: string, prop: Property): (r: map<string, Schema>)
    requires n in m
    ensures r.Keys == m.Keys && r[n].props == m[n].props[prop.name := prop]
    ensures r[n].propOrder == if prop.name in m[n].props then m[n].propOrder else m[n].propOrder + [prop.name]
    ensures r[n] == m[n].(propOrder := r[n].propOrder, props := r[n].props)
    ensures forall k :: k in m && k != n ==> r[k] == m[k]
  {
    var s := m[n];
    var order := if prop.name in s.props then s.propOrder else s.propOrder + [prop.name];
    m[n := s.(propOrder := order, props := s.props[prop.name := prop])]
  }

  /** The recursion guard fired: the property and its schema are marked. */
  function MarkRecursive(m: map<string, Schema>, n: string, p: string): (r: map<string, Schema>)
    requires n in m && p in m[n].props
    ensures r.Keys == m.Keys && r[n].props.Keys == m[n].props.Keys && r[n].props[p] == m[n].props[p].(isRecursive := true) && r[n].hasRecursiveProp
    ensures forall q :: q in m[n].props && q != p ==> r[n].props[q] == m[n].props[q]
    ensures r[n] == m[n].(props := r[n].props, hasRecursiveProp := true)
    ensures forall k :: k in m && k != n ==> r[k] == m[k]
  {
    var s := m[n];
    m[n := s.(props := s.props[p := s.props[p].(isRecursive := true)], hasRecursiveProp := true)]
  }

  /** `property.zodPropCode = ...` */
  function SetCode(m: map<string, Schema>, n: string, p: string, text: string): (r: map<string, Schema>)
    requires n in m && p in m[n].props
    ensures r.Keys == m.Keys && r[n].props.Keys == m[n].props.Keys && r[n].props[p] == m[n].props[p].(zodPropCode := text)
    ensures forall q :: q in m[n].props && q != p ==> r[n].props[q] == m[n].props[q]
    ensures r[n] == m[n].(props := r[n].props)
    ensures forall k :: k in m && k != n ==> r[k] == m[k]
  {
    var s := m[n];
    m[n := s.(props := s.props[p := s.props[p].(zodPropCode := text)])]
  }

  lemma RegisterValid(m: map<string, Schema>, name: string, description: string, ref: string, gen: LineGen)
    requires RegistryValid(m, gen) && IsWord(name)
    ensures RegistryValid(Register(m, name, description, ref), gen)
  {
  }

  lemma RegisterFrames(m: map<string, Schema>, name: string, description: string, ref: string,
                       path: seq<string>, frames: seq<(string, string)>)
    requires FramesOk(m, path, frames) && Pending(m, frames)
    ensures var r := Register(m, name, description, ref);
      Grows(m, r) && FramesKept(m, r, frames) && FramesOk(r, path, frames) && Pending(r, frames)
  {
  }

  lemma PropsPut(s: Schema, prop: Property, gen: LineGen)
    requires PropsValid(s, gen)
    requires prop.name != "@context" && prop.zodPropCode == "" && !prop.isRecursive
    ensures var order := if prop.name in s.props then s.propOrder else s.propOrder + [prop.name];
      PropsValid(s.(propOrder := order, props := s.props[prop.name := prop]), gen)
  {
    var order := if prop.name in s.props then s.propOrder else s.propOrder + [prop.name];
    assert forall i, j :: 0 <= i < j < |order| ==> order[i] != order[j];
  }

  lemma PlaceValid(m: map<string, Schema>, n: string, prop: Property, gen: LineGen)
    requires RegistryValid(m, gen) && n in m
    requires prop.name != "@context" && prop.zodPropCode == "" && !prop.isRecursive
    ensures RegistryValid(PutProperty(m, n, prop), gen)
  {
    PropsPut(m[n], prop, gen);
  }

  lemma PlaceKept(m: map<string, Schema>, n: string, prop: Property, path: seq<string>, frames: seq<(string, string)>)
    requires n in m && FramesOk(m, path, frames) && n + "." + prop.name !in path
    ensures FramesKept(m, PutProperty(m, n, prop), frames)
  {
  }

  lemma PlaceFrames(m: map<string, Schema>, n: string, prop: Property, path: seq<string>, frames: seq<(string, string)>)
    requires n in m && FramesOk(m, path, frames) && Pending(m, frames) && prop.zodPropCode == ""
    ensures var r := PutProperty(m, n, prop);
      Grows(m, r) && FramesOk(r, path, frames) && Pending(r, frames + [(n, prop.name)])
  {
  }

  lemma PlaceFramesNext(m: map<string, Schema>, n: string, prop: Property, path: seq<string>, frames: seq<(string, string)>)
    requires n in m && FramesOk(m, path, frames)
    ensures FramesOk(PutProperty(m, n, prop), path + [n + "." + prop.name], frames + [(n, prop.name)])
  {
    var r := PutProperty(m, n, prop);
    assert Grows(m, r);
    FramesOkGrows(m, r, path, frames);
  }

  lemma MarkValid(m: map<string, Schema>, n: string, p: string, gen: LineGen)
    requires RegistryValid(m, gen) && n in m && p in m[n].props
    ensures RegistryValid(MarkRecursive(m, n, p), gen)
  {
    var r := MarkRecursive(m, n, p);
    var s := m[n];
    var t := s.(props := s.props[p := s.props[p].(isRecursive := true)], hasRecursiveProp := true);
    assert r == m[n := t];
    assert SchemaValid(n, s, gen);
    PropsMarkValid(s, p, gen);
  }

  lemma PropsMarkValid(s: Schema, p: string, gen: LineGen)
    requires PropsValid(s, gen) && p in s.props
    ensures PropsValid(s.(props := s.props[p := s.props[p].(isRecursive := true)], hasRecursiveProp := true), gen)
  {
  }

  lemma MarkFrames(m: map<string, Schema>, n: string, p: string, path: seq<string>, frames: seq<(string, string)>)
    requires n in m && p in m[n].props && FramesOk(m, path, frames) && Pending(m, frames)
    ensures var r := MarkRecursive(m, n, p);
      Grows(m, r) && FramesKept(m, r, frames) && FramesOk(r, path, frames) && Pending(r, frames)
  {
    var r := MarkRecursive(m, n, p);
    MarkGrows(m, n, p);
    FramesOkGrows(m, r, path, frames);
    MarkKept(m, n, p, frames);
    MarkPending(m, n, p, frames);
  }

  lemma MarkGrows(m: map<string, Schema>, n: string, p: string)
    requires n in m && p in m[n].props
    ensures Grows(m, MarkRecursive(m, n, p))
  {
  }

  lemma MarkKept(m: map<string, Schema>, n: string, p: string, frames: seq<(string, string)>)
    requires n in m && p in m[n].props
    ensures FramesKept(m, MarkRecursive(m, n, p), frames)
  {
  }

  lemma MarkPending(m: map<string, Schema>, n: string, p: string, frames: seq<(string, string)>)
    requires n in m && p in m[n].props && Pending(m, frames)
    ensures Pending(MarkRecursive(m, n, p), frames)
  {
    var r := MarkRecursive(m, n, p);
    forall k, q | k in r && q in r[k].props && r[k].props[q].zodPropCode == "" ensures (k, q) in frames {
      assert q in m[k].props && m[k].props[q].zodPropCode == "";
    }
  }

  lemma SetCodeValid(m: map<string, Schema>, n: string, p: string, text: string, gen: LineGen)
    requires RegistryValid(m, gen) && n in m && p in m[n].props
    requires IsZodLine(gen, p, m[n].props[p].propDef, text)
    ensures RegistryValid(SetCode(m, n, p, text), gen)
  {
    var r := SetCode(m, n, p, text);
    var s := m[n];
    var t := s.(props := s.props[p := s.props[p].(zodPropCode := text)]);
    assert r == m[n := t];
    assert SchemaValid(n, s, gen);
    PropsSetCodeValid(s, p, text, gen);
  }

  lemma PropsSetCodeValid(s: Schema, p: string, text: string, gen: LineGen)
    requires PropsValid(s, gen) && p in s.props && IsZodLine(gen, p, s.props[p].propDef, text)
    ensures PropsValid(s.(props := s.props[p := s.props[p].(zodPropCode := text)]), gen)
  {
  }

  lemma SetCodeFrames(m: map<string, Schema>, n: string, p: string, text: string,
                      path: seq<string>, frames: seq<(string, string)>)
    requires n in m && p in m[n].props && text != ""
    requires FramesOk(m, path, frames) && Pending(m, frames + [(n, p)]) && (n, p) !in frames
    ensures var r := SetCode(m, n, p, text);
      Grows(m, r) && FramesKept(m, r, frames) && FramesOk(r, path, frames) && Pending(r, frames)
  {
    SetCodeKept(m, n, p, text, frames);
    SetCodePending(m, n, p, text, frames);
  }

  lemma SetCodeKept(m: map<string, Schema>, n: string, p: string, text: string, frames: seq<(string, string)>)
    requires n in m && p in m[n].props && (n, p) !in frames
    ensures FramesKept(m, SetCode(m, n, p, text), frames)
  {
    forall i | 0 <= i < |frames| ensures frames[i] != (n, p) {
      assert frames[i] in frames;
    }
  }

  lemma SetCodePending(m: map<string, Schema>, n: string, p: string, text: string, frames: seq<(string, string)>)
    requires n in m && p in m[n].props && text != "" && Pending(m, frames + [(n, p)])
    ensures Pending(SetCode(m, n, p, text), frames)
  {
    var r := SetCode(m, n, p, text);
    forall k, q | k in r && q in r[k].props && r[k].props[q].zodPropCode == "" ensures (k, q) in frames {
      assert (k, q) != (n, p);
      assert (k, q) in frames + [(n, p)];
    }
  }

  lemma WordsHaveNoDot(m: map<string, Schema>, gen: LineGen)
    requires RegistryValid(m, gen)
    ensures forall n :: n in m ==> '.' !in n
  {
    forall n | n in m ensures '.' !in n {
      assert IsWord(n);
      assert forall i :: 0 <= i < |n| ==> n[i] != '.';
    }
  }

  /** The guard key names a frame, so the property it names is registered. */
  lemma GuardHit(m: map<string, Schema>, n: string, p: string, gen: LineGen, path: seq<string>, frames: seq<(string, string)>)
    requires RegistryValid(m, gen) && FramesOk(m, path, frames) && n in m && n + "." + p in path
    ensures p in m[n].props
  {
    WordsHaveNoDot(m, gen);
    var k :| 0 <= k < |path| && path[k] == n + "." + p;
    NameSplit(frames[k].0, frames[k].1, n, p);
  }

  lemma DocFacts(doc: map<seq<string>, RawSchema>, segs: seq<string>, i: int, refs: set<string>)
    requires segs in doc && 0 <= i < |doc[segs].properties| && DocRefs(doc) <= refs
    ensures doc[segs].properties[i].0 in DocPropNames(doc)
    ensures DeepRefs(doc[segs].properties[i].1) <= refs
  {
  }

  lemma PathKeyIn(refs: set<string>, doc: map<seq<string>, RawSchema>, n: string, p: string)
    requires n in NamesOf(refs) && p in DocPropNames(doc)
    ensures n + "." + p in PathKeys(refs, doc)
  {
  }

  lemma FramesKeptShrink(a: map<string, Schema>, b: map<string, Schema>, c: map<string, Schema>,
                         frames: seq<(string, string)>, frames2: seq<(string, string)>)
    requires |frames| <= |frames2| && frames2[..|frames|] == frames
    requires FramesKept(a, b, frames) && FramesKept(b, c, frames2)
    ensures FramesKept(a, c, frames)
  {
    forall i | 0 <= i < |frames| ensures frames2[i] == frames[i] {
      assert frames2[..|frames|][i] == frames[i];
    }
  }

  /** The property last put under construction keeps its definition. */
  lemma LastFrameKept(b: map<string, Schema>, c: map<string, Schema>, frames: seq<(string, string)>, n: string, p: string)
    requires FramesKept(b, c, frames + [(n, p)]) && n in b && p in b[n].props
    ensures n in c && p in c[n].props && c[n].props[p].propDef == b[n].props[p].propDef
  {
    var i := |frames|;
    assert (frames + [(n, p)])[i] == (n, p);
    assert c[n].props[p].(isRecursive := false) == b[n].props[p].(isRecursive := false);
  }

  /** The names of the entries of a definition's `properties` the resolver builds. */
  ghost function BuiltNames(ps: seq<(string, PropDef)>): set<string> {
    set j | 0 <= j < |ps| && ps[j].0 != "@context" :: ps[j].0
  }

  lemma BuiltNamesNext(ps: seq<(string, PropDef)>, i: nat)
    requires i < |ps|
    ensures BuiltNames(ps[..i + 1]) == BuiltNames(ps[..i]) + if ps[i].0 != "@context" then {ps[i].0} else {}
  {
    var a := ps[..i + 1];
    assert forall j :: 0 <= j < i ==> a[j] == ps[..i][j];
  }

  lemma NotAFrame(m: map<string, Schema>, path: seq<string>, frames: seq<(string, string)>, n: string, p: string)
    requires FramesOk(m, path, frames) && n + "." + p !in path
    ensures (n, p) !in frames
  {
  }

  class Context {
    const doc: map<seq<string>, RawSchema>
    const importPrefix: string
    const outputPath: string
    const imp: ImportsBy<ImportKey>
    var schemasByName: map<string, Schema>
    var schemaOrder: seq<string>

    constructor (doc: map<seq<string>, RawSchema>, importPrefix: string, outputPath: string, imp: ImportsBy<ImportKey>)
      ensures this.doc == doc && this.importPrefix == importPrefix && this.outputPath == outputPath && this.imp == imp
      ensures schemasByName == map[] && schemaOrder == []
      ensures Valid()
    {
      this.doc := doc;
      this.importPrefix := importPrefix;
      this.outputPath := outputPath;
      this.imp := imp;
      schemasByName := map[];
      schemaOrder := [];
    }

    /** The registry invariant; `schemaOrder` is the insertion order of the names. */
    ghost predicate Valid()
      reads this
    {
      && RegistryValid(schemasByName, ZodLines(importPrefix))
      && (forall n :: n in schemaOrder <==> n in schemasByName)
      && (forall i, j :: 0 <= i < j < |schemaOrder| ==> schemaOrder[i] != schemaOrder[j])
    }

    /** `analyzeOpenApiSchema`: the name of the schema registered for `s`. */
    method Analyze(s: PropDef, description: string, path: seq<string>, ghost frames: seq<(string, string)>, ghost refs: set<string>)
      returns (r: Result<string>)
      requires Valid() && FramesOk(schemasByName, path, frames) && Pending(schemasByName, frames)
      requires DocRefs(doc) <= refs && DeepRefs(s) <= refs
      modifies this, imp
      ensures Valid() && Grows(old(schemasByName), schemasByName) && FramesKept(old(schemasByName), schemasByName, frames)
      ensures r.Ok? ==> Pending(schemasByName, frames)
      ensures r.Ok? ==> r == BuildSchemaName(Unwrap(s, description).0.ref) && r.value in schemasByName
      ensures r.Ok? && r.value !in old(schemasByName) ==> schemasByName[r.value].description == Unwrap(s, description).1
      decreases |PathKeys(refs, doc) - set x | x in path|, 6, s
    {
      if s.hydraItems.Some? {
        r := Analyze(s.hydraItems.value, "Item for " + description, path, frames, refs);
        return;
      }
      var name := BuildSchemaName(s.ref);
      if name.Err? {
        return Err(name.error);
      }
      SchemaNameIsWord(s.ref);
      assert s.ref == Some(s.ref.value) && s.ref.value in refs;
      assert name.value in NamesOf(refs);
      var u := BuildSchema(name.value, description, s, path, frames, refs);
      if u.Err? {
        return Err(u.error);
      }
      r := Ok(name.value);
    }

    /** Every registered property has its Zod line: no property is under construction. */
    ghost predicate Complete()
      reads this
    {
      Pending(schemasByName, [])
    }

    /** `analyzeOpenApiSchema(schema, description, context)`: the entry point, with an empty guard path. */
    method AnalyzeRoot(s: PropDef, description: string) returns (r: Result<string>)
      requires Valid() && Complete()
      modifies this, imp
      ensures Valid() && Grows(old(schemasByName), schemasByName)
      ensures r.Ok? ==> Complete()
      ensures r.Ok? ==> r == BuildSchemaName(Unwrap(s, description).0.ref) && r.value in schemasByName
      ensures r.Ok? && r.value !in old(schemasByName) ==> schemasByName[r.value].description == Unwrap(s, description).1
    {
      r := Analyze(s, description, [], [], DocRefs(doc) + DeepRefs(s));
    }

    /** `buildSchema`: only references are handled. */
    method BuildSchema(name: string, description: string, s: PropDef, path: seq<string>, ghost frames: seq<(string, string)>, ghost refs: set<string>)
      returns (r: Result<()>)
      requires Valid() && FramesOk(schemasByName, path, frames) && Pending(schemasByName, frames)
      requires DocRefs(doc) <= refs && name in NamesOf(refs) && IsWord(name)
      modifies this, imp
      ensures Valid() && Grows(old(schemasByName), schemasByName) && FramesKept(old(schemasByName), schemasByName, frames)
      ensures r.Ok? ==> Pending(schemasByName, frames) && name in schemasByName
      ensures r.Ok? && name !in old(schemasByName) ==> schemasByName[name].description == description
      decreases |PathKeys(refs, doc) - set x | x in path|, 5
    {
      if HasRef(s) {
        r := BuildSchemaByRef(s.ref.value, name, description, path, frames, refs);
      } else {
        r := Err("Unhandled schema definition");
      }
    }

    /** `buildSchemaByRef`: registers the schema once, then (re)builds every property of its definition. */
    method BuildSchemaByRef(ref: string, name: string, description: string, path: seq<string>, ghost frames: seq<(string, string)>, ghost refs: set<string>)
      returns (r: Result<()>)
      requires Valid() && FramesOk(schemasByName, path, frames) && Pending(schemasByName, frames)
      requires DocRefs(doc) <= refs && name in NamesOf(refs) && IsWord(name)
      modifies this, imp
      ensures Valid() && Grows(old(schemasByName), schemasByName) && FramesKept(old(schemasByName), schemasByName, frames)
      ensures name in schemasByName
      ensures name !in old(schemasByName) ==> schemasByName[name].description == description && schemasByName[name].ref == ref
      ensures r.Ok? ==> Pending(schemasByName, frames)
      ensures r.Ok? ==> Segments(ref) in doc && BuiltNames(doc[Segments(ref)].properties) <= schemasByName[name].props.Keys
      decreases |PathKeys(refs, doc) - set x | x in path|, 4
    {
      RegisterValid(schemasByName, name, description, ref, ZodLines(importPrefix));
      RegisterFrames(schemasByName, name, description, ref, path, frames);
      if name !in schemasByName {
        schemaOrder := schemaOrder + [name];
      }
      schemasByName := Register(schemasByName, name, description, ref);
      var segs := Segments(ref);
      if segs !in doc {
        return Err("TypeError");
      }
      ghost var registered := schemasByName;
      r := BuildEntries(segs, name, EntityName(ref), path, frames, refs);
      GrowsTrans(old(schemasByName), registered, schemasByName);
      FramesKeptTrans(old(schemasByName), registered, schemasByName, frames);
    }

    /** The loop over the definition's `properties`, in document order. */
    method BuildEntries(segs: seq<string>, name: string, entityName: string,
                        path: seq<string>, ghost frames: seq<(string, string)>, ghost refs: set<string>)
      returns (r: Result<()>)
      requires Valid() && FramesOk(schemasByName, path, frames) && Pending(schemasByName, frames)
      requires DocRefs(doc) <= refs && name in schemasByName && name in NamesOf(refs) && segs in doc
      modifies this, imp
      ensures Valid() && Grows(old(schemasByName), schemasByName) && FramesKept(old(schemasByName), schemasByName, frames)
      ensures name in schemasByName
      ensures r.Ok? ==> Pending(schemasByName, frames)
      ensures r.Ok? ==> BuiltNames(doc[segs].properties) <= schemasByName[name].props.Keys
      decreases |PathKeys(refs, doc) - set x | x in path|, 3
    {
      var properties := doc[segs].properties;
      ghost var m0 := schemasByName;
      var i := 0;
      while i < |properties|
        invariant 0 <= i <= |properties|
        invariant Valid() && Grows(m0, schemasByName) && FramesKept(m0, schemasByName, frames)
        invariant FramesOk(schemasByName, path, frames) && Pending(schemasByName, frames)
        invariant name in schemasByName && BuiltNames(properties[..i]) <= schemasByName[name].props.Keys
      {
        ghost var before := schemasByName;
        var u := BuildEntry(segs, i, name, entityName, path, frames, refs);
        GrowsTrans(m0, before, schemasByName);
        FramesKeptTrans(m0, before, schemasByName, frames);
        if u.Err? {
          return Err(u.error);
        }
        BuiltNamesNext(properties, i);
        i := i + 1;
      }
      assert properties[..i] == properties;
      r := Ok(());
    }

    /** One entry of the definition's `properties`, completed by `Fixup` and built unless it is `@context`. */
    method BuildEntry(segs: seq<string>, i: nat, name: string, entityName: string,
                      path: seq<string>, ghost frames: seq<(string, string)>, ghost refs: set<string>)
      returns (r: Result<()>)
      requires Valid() && FramesOk(schemasByName, path, frames) && Pending(schemasByName, frames)
      requires DocRefs(doc) <= refs && name in schemasByName && name in NamesOf(refs)
      requires segs in doc && i < |doc[segs].properties|
      modifies this, imp
      ensures Valid() && Grows(old(schemasByName), schemasByName) && FramesKept(old(schemasByName), schemasByName, frames)
      ensures FramesOk(schemasByName, path, frames) && name in schemasByName
      ensures doc[segs].properties[i].0 != "@context" ==> doc[segs].properties[i].0 in schemasByName[name].props
      ensures r.Ok? ==> Pending(schemasByName, frames)
      decreases |PathKeys(refs, doc) - set x | x in path|, 2
    {
      var raw := doc[segs];
      var (propName, propDef) := raw.properties[i];
      if propName == "@context" {
        return Ok(());
      }
      var fixed := Fixup(raw, propName, propDef, entityName);
      DocFacts(doc, segs, i, refs);
      assert DeepRefs(fixed) == DeepRefs(propDef);
      r := BuildSchemaProperty(propName, fixed, name, PropKey(segs, propName), path, frames, refs);
    }

    /** `buildSchemaProperty`: marks a property reached again as recursive, or rebuilds it. */
    method BuildSchemaProperty(propName: string, propDef: PropDef, schemaName: string, key: ImportKey,
                               path: seq<string>, ghost frames: seq<(string, string)>, ghost refs: set<string>)
      returns (r: Result<()>)
      requires Valid() && FramesOk(schemasByName, path, frames) && Pending(schemasByName, frames)
      requires DocRefs(doc) <= refs && DeepRefs(propDef) <= refs
      requires schemaName in schemasByName && schemaName in NamesOf(refs)
      requires propName in DocPropNames(doc) && propName != "@context"
      modifies this, imp
      ensures Valid() && Grows(old(schemasByName), schemasByName) && FramesKept(old(schemasByName), schemasByName, frames)
      ensures FramesOk(schemasByName, path, frames)
      ensures schemaName in schemasByName && propName in schemasByName[schemaName].props
      ensures r.Ok? ==> Pending(schemasByName, frames)
      ensures schemaName + "." + propName in path ==>
        && propName in old(schemasByName)[schemaName].props
        && schemasByName == MarkRecursive(old(schemasByName), schemaName, propName)
      ensures r.Ok? && schemaName + "." + propName !in path ==>
        && schemasByName[schemaName].props[propName].propDef == propDef
        && ZodPropLine(propName, propDef, importPrefix).Ok?
        && schemasByName[schemaName].props[propName].zodPropCode == ZodPropLine(propName, propDef, importPrefix).value.text
      decreases |PathKeys(refs, doc) - set x | x in path|, 1
    {
      var pathKey := schemaName + "." + propName;
      if pathKey in path {
        MarkGuard(propName, schemaName, path, frames);
        return Ok(());
      }
      r := RebuildProperty(propName, propDef, schemaName, key, path, frames, refs);
    }

    /**
     * A property not on the guard: stored with an empty line, its reference
     * sub-definitions analysed with its key on the guard, then its Zod line set.
     */
    method RebuildProperty(propName: string, propDef: PropDef, schemaName: string, key: ImportKey,
                           path: seq<string>, ghost frames: seq<(string, string)>, ghost refs: set<string>)
      returns (r: Result<()>)
      requires Valid() && FramesOk(schemasByName, path, frames) && Pending(schemasByName, frames)
      requires DocRefs(doc) <= refs && DeepRefs(propDef) <= refs
      requires schemaName in schemasByName && schemaName in NamesOf(refs)
      requires propName in DocPropNames(doc) && propName != "@context"
      requires schemaName + "." + propName !in path
      modifies this, imp
      ensures Valid() && Grows(old(schemasByName), schemasByName) && FramesKept(old(schemasByName), schemasByName, frames)
      ensures FramesOk(schemasByName, path, frames)
      ensures schemaName in schemasByName && propName in schemasByName[schemaName].props
      ensures r.Ok? ==> Pending(schemasByName, frames)
      ensures r.Ok? ==>
        && schemasByName[schemaName].props[propName].propDef == propDef
        && ZodPropLine(propName, propDef, importPrefix).Ok?
        && schemasByName[schemaName].props[propName].zodPropCode == ZodPropLine(propName, propDef, importPrefix).value.text
      decreases |PathKeys(refs, doc) - set x | x in path|, 0
    {
      var pathKey := schemaName + "." + propName;
      Place(propName, propDef, schemaName, key, path, frames);
      ghost var placed := schemasByName;
      var path2 := path + [pathKey];
      ghost var frames2 := frames + [(schemaName, propName)];
      PathKeyIn(refs, doc, schemaName, propName);
      Shrinks(PathKeys(refs, doc), path, pathKey);
      var subs := SubsToAnalyze(propDef);
      SubRefs(propDef);
      var x := AnalyzeSubs(subs, path2, frames2, refs);
      GrowsTrans(old(schemasByName), placed, schemasByName);
      FramesKeptShrink(old(schemasByName), placed, schemasByName, frames, frames2);
      FramesOkGrows(placed, schemasByName, path, frames);
      if x.Err? {
        return Err(x.error);
      }
      assert placed[schemaName].props[propName].propDef == propDef;
      LastFrameKept(placed, schemasByName, frames, schemaName, propName);
      ghost var analysed := schemasByName;
      r := FillLine(propName, propDef, schemaName, key, path, frames);
      GrowsTrans(old(schemasByName), analysed, schemasByName);
      FramesKeptTrans(old(schemasByName), analysed, schemasByName, frames);
    }

    /** The guard fired: the property under construction is marked recursive, and so is its schema. */
    method MarkGuard(propName: string, schemaName: string, path: seq<string>, ghost frames: seq<(string, string)>)
      requires Valid() && FramesOk(schemasByName, path, frames) && Pending(schemasByName, frames)
      requires schemaName in schemasByName && schemaName + "." + propName in path
      modifies this
      ensures Valid() && Grows(old(schemasByName), schemasByName) && FramesKept(old(schemasByName), schemasByName, frames)
      ensures FramesOk(schemasByName, path, frames) && Pending(schemasByName, frames)
      ensures propName in old(schemasByName)[schemaName].props
      ensures schemasByName == MarkRecursive(old(schemasByName), schemaName, propName)
    {
      GuardHit(schemasByName, schemaName, propName, ZodLines(importPrefix), path, frames);
      MarkValid(schemasByName, schemaName, propName, ZodLines(importPrefix));
      MarkFrames(schemasByName, schemaName, propName, path, frames);
      schemasByName := MarkRecursive(schemasByName, schemaName, propName);
    }

    /** `parentSchema.propertiesByName[propName] = { name, zodPropCode: "", propDef }` */
    method Place(propName: string, propDef: PropDef, schemaName: string, key: ImportKey,
                 path: seq<string>, ghost frames: seq<(string, string)>)
      requires Valid() && FramesOk(schemasByName, path, frames) && Pending(schemasByName, frames)
      requires schemaName in schemasByName && propName != "@context" && schemaName + "." + propName !in path
      modifies this
      ensures Valid() && Grows(old(schemasByName), schemasByName) && FramesKept(old(schemasByName), schemasByName, frames)
      ensures schemasByName == PutProperty(old(schemasByName), schemaName, Property(propName, propDef, key, "", false))
      ensures FramesOk(schemasByName, path, frames)
      ensures FramesOk(schemasByName, path + [schemaName + "." + propName], frames + [(schemaName, propName)])
      ensures Pending(schemasByName, frames + [(schemaName, propName)])
    {
      var placeholder := Property(propName, propDef, key, "", false);
      PlaceValid(schemasByName, schemaName, placeholder, ZodLines(importPrefix));
      PlaceKept(schemasByName, schemaName, placeholder, path, frames);
      PlaceFrames(schemasByName, schemaName, placeholder, path, frames);
      PlaceFramesNext(schemasByName, schemaName, placeholder, path, frames);
      schemasByName := PutProperty(schemasByName, schemaName, placeholder);
    }

    /** The sub-definitions that are references are analysed, with the property's key on the guard. */
    method AnalyzeSubs(subs: seq<PropDef>, path: seq<string>, ghost frames: seq<(string, string)>, ghost refs: set<string>)
      returns (r: Result<()>)
      requires Valid() && FramesOk(schemasByName, path, frames) && Pending(schemasByName, frames)
      requires DocRefs(doc) <= refs && forall s :: s in subs ==> DeepRefs(s) <= refs
      modifies this, imp
      ensures Valid() && Grows(old(schemasByName), schemasByName) && FramesKept(old(schemasByName), schemasByName, frames)
      ensures FramesOk(schemasByName, path, frames)
      ensures r.Ok? ==> Pending(schemasByName, frames)
      decreases |PathKeys(refs, doc) - set x | x in path|, 7
    {
      ghost var m0 := schemasByName;
      var i := 0;
      while i < |subs|
        invariant 0 <= i <= |subs|
        invariant Valid() && Grows(m0, schemasByName) && FramesKept(m0, schemasByName, frames)
        invariant FramesOk(schemasByName, path, frames) && Pending(schemasByName, frames)
      {
        ghost var before := schemasByName;
        var x := Analyze(subs[i], "", path, frames, refs);
        GrowsTrans(m0, before, schemasByName);
        FramesKeptTrans(m0, before, schemasByName, frames);
        FramesOkGrows(before, schemasByName, path, frames);
        if x.Err? {
          return Err(x.error);
        }
        i := i + 1;
      }
      r := Ok(());
    }

    /** `property.zodPropCode = zodSchemaPropLine(...)`, recording the imports under the property's key. */
    method FillLine(propName: string, propDef: PropDef, schemaName: string, key: ImportKey,
                    path: seq<string>, ghost frames: seq<(string, string)>)
      returns (r: Result<()>)
      requires Valid() && FramesOk(schemasByName, path, frames) && Pending(schemasByName, frames + [(schemaName, propName)])
      requires schemaName in schemasByName && propName in schemasByName[schemaName].props
      requires schemasByName[schemaName].props[propName].propDef == propDef
      requires schemaName + "." + propName !in path
      modifies this, imp
      ensures Valid() && Grows(old(schemasByName), schemasByName) && FramesKept(old(schemasByName), schemasByName, frames)
      ensures FramesOk(schemasByName, path, frames)
      ensures schemaName in schemasByName && propName in schemasByName[schemaName].props
      ensures r.Ok? ==> Pending(schemasByName, frames)
      ensures r.Ok? <==> ZodPropLine(propName, propDef, importPrefix).Ok?
      ensures schemasByName[schemaName].props[propName].propDef == propDef
      ensures r.Ok? ==> schemasByName[schemaName].props[propName].zodPropCode == ZodPropLine(propName, propDef, importPrefix).value.text
    {
      var line := ZodPropLine(propName, propDef, importPrefix);
      if line.Err? {
        return Err(line.error);
      }
      imp.AddAll(key, line.value.imports);
      SetLine(propName, schemaName, line.value.text, path, frames);
      r := Ok(());
    }

    /** `property.zodPropCode = text`, for the Zod line `text` of the property under construction. */
    method SetLine(propName: string, schemaName: string, text: string, path: seq<string>, ghost frames: seq<(string, string)>)
      requires Valid() && FramesOk(schemasByName, path, frames) && Pending(schemasByName, frames + [(schemaName, propName)])
      requires schemaName in schemasByName && propName in schemasByName[schemaName].props
      requires IsZodLine(ZodLines(importPrefix), propName, schemasByName[schemaName].props[propName].propDef, text)
      requires schemaName + "." + propName !in path
      modifies this
      ensures Valid() && Grows(old(schemasByName), schemasByName) && FramesKept(old(schemasByName), schemasByName, frames)
      ensures FramesOk(schemasByName, path, frames) && Pending(schemasByName, frames)
      ensures schemasByName == SetCode(old(schemasByName), schemaName, propName, text)
    {
      NotAFrame(schemasByName, path, frames, schemaName, propName);
      SetCodeValid(schemasByName, schemaName, propName, text, ZodLines(importPrefix));
      SetCodeFrames(schemasByName, schemaName, propName, text, path, frames);
      schemasByName := SetCode(schemasByName, schemaName, propName, text);
    }
  }
}
