# openapi-repos-generator in Dafny

A model of the core of `openapi-repos-generator`. The generator reads an API
Platform OpenAPI document and writes TypeScript code from it:

- one module per schema, holding a Zod validator and its inferred type;
- one repository module per entity, holding react-query hooks for its
  endpoints.

The model covers the following parts:

- **Schema resolver** (`Resolver`). `Resolver.Context` is a class.
  - Its field `schemasByName` maps each schema name to its entry, standing for
    `context.schemasByName`.
  - Its methods follow `$ref` references through the document, which is a map
    from a reference's path segments to the raw definition.
  - They register each schema once, with a placeholder, before its properties.
  - They rebuild every property of a schema on each visit.
  - They mark a property recursive when its `Schema.prop` key is already on the
    path.
  - Termination rests on the number of distinct `Schema.prop` keys that are not
    yet on the path.
- **Schema names** (`SchemaNames`). `buildSchemaName` is a hand-written scanner
  for its regular expression. The entity name of a reference is read by a second
  scanner.
- **Property code** (`PropCode`). The first-match chains `zodSchemaPropCode` and
  `typescriptPropCode` run over a loosely typed `PropDef`, and
  `zodSchemaPropLine` adds the key in front.
- **Schema modules** (`SchemaCode`). A schema becomes either:
  - one `z.object` of every property line;
  - or a base object, a hand-written type and an `.extend` that split the lines
    by their recursion mark.

  There is one module per registered schema, keyed by its output path.
- **Imports** (`Imports`). `ImportsBy` is a class whose `entries` map stands for
  the `importsBy` WeakMap, with an explicit key per owner. `buildImports`
  groups, deduplicates, sorts and excludes paths in two loops, and then renders
  the lines.
- **String helpers** (`Utils`, `Strings`). `lcFirst`, `ucFirst`, `pascalCase`,
  `toJsIdentifier`, `toJsObjKey` and the type-name helpers are modelled, along
  with the parts of `split`, `join`, `JSON.stringify` and `localeCompare` that
  they use.
- **Operations** (`Operations`). `Operations.Operation` is a class whose fields
  are the ones `analyzeOperation` assigns. The module covers:
  - the hook type, name and description rules;
  - parameter typing;
  - the stable rank sort of parameters;
  - the analysis of the request body and the 200 response.

  `HookNames` states the hook name of a path made of `/<word>` segments and
  `/<items>/{<id>}` items in terms of those pieces.
- **Repositories** (`Repository`, `Repositories`). This part covers:
  - the path template and its query string;
  - the query key, which is recorded on the operation;
  - the five hook bodies and the imports each one records;
  - dropping `get` operations that have no response schema;
  - the `options` type and the commenting-out of endpoints that cannot be
    generated;
  - grouping by entity name, with one file per group.

Thrown errors are `Err` values of a `Result` (`Wrappers`), carrying the message
the code throws, such as `"Unhandled type"`, `"To be implemented"`,
`"Wrong RegExp"`, `"Unhandled schema"` or `"TypeError"` for a property access on
`undefined`. Methods that can throw return a `Result` and stop at the first
error, as the code does.

The model follows the code where the code and the generator's documentation
differ. The documentation gives `…/Foo.jsonld-read` the name `Foo`. The code
appends the remaining group and gives `FooRead`: the group `read` is not the
entity name, so it is kept, and the dto branch is only reached without groups
(`SchemaNames.NameAppendsGroup`, for any name and any such group).

## Model

| member | source | states |
|---|---|---|
| SchemaNames.MatchMakeRef | schema.ts:12-14 | A reference built from valid parts (`#<prefix>/<name>[.<dto>].jsonld[-<group>]`) is matched and gives back exactly those parts |
| SchemaNames.MatchRefParts | schema.ts:12-18 | Every successful match reads valid parts, and the reference is the one built from them with some prefix, so the matcher accepts exactly the pattern's language |
| SchemaNames.NameErrors | schema.ts:10-38 | A missing or empty `$ref` throws `Unhandled schema`; a reference that does not match (no leading `#`) throws `Wrong RegExp` |
| SchemaNames.Camelise | schema.ts:22-27 | Camelising never lengthens a group, keeps it empty only when it was empty, starts with the same or an upper-case letter, and keeps word characters |
| SchemaNames.CameliseNoBreak | schema.ts:22-27 | After camelising, no non-letter is followed by a lower-case letter |
| SchemaNames.CameliseIdempotent | schema.ts:22-27 | Camelising twice is camelising once |
| SchemaNames.NameWithoutGroups | schema.ts:29-33 | When no group remains after dropping a repeated first group, the name is the dto if present, else the name part |
| SchemaNames.GroupsOfOne | schema.ts:21-29 | A single camel-case group survives the split and is dropped exactly when it equals the name ignoring case |
| SchemaNames.GroupsOfTwo | schema.ts:21-29 | Of two groups only the first can be dropped, and only when it equals the name ignoring case; the second is always kept |
| SchemaNames.NameOfParts | schema.ts:10-38 | The name of any reference built from valid parts is the name part followed by its kept groups, or the dto or name part when none is kept |
| SchemaNames.NameDropsRepeatedGroup | schema.ts:21-31 | For any name and groups `g1.g2`, a first group equal to the name ignoring case is dropped and the next is appended with `ucFirst` |
| SchemaNames.NameDropsOnlyGroup | schema.ts:29-33 | A single group equal to the name ignoring case is dropped, and the dto (or else the name part) names the schema |
| SchemaNames.NameAppendsGroup | schema.ts:21-31 | For any name and one group that is not the name ignoring case, the name is the name part followed by the group with `ucFirst`; the dto is ignored |
| SchemaNames.NameAppendsGroups | schema.ts:21-31 | For any name and two groups, the first not being the name ignoring case, both groups are appended in order with `ucFirst` |
| SchemaNames.NameFromDto | schema.ts:32 | Without a group, a reference with a dto is named by the dto |
| SchemaNames.NameFromName | schema.ts:33 | Without a group or dto, a reference is named by its name part |
| SchemaNames.SchemaNameIsWord | schema.ts:10-38 | Every derived schema name is a non-empty run of word characters without a dot, so `Schema.prop` keys split back uniquely |
| SchemaNames.EntityNameOfMatch | schema.ts:226 | For a reference that names a schema, the entity name read by `/^.+\/(\w+)/` is the `name` part |
| SchemaNames.EntityNameOfRef | schema.ts:226 | The entity name of a reference built from valid parts is its name part |
| PropCode.TypeNameOf | schema.ts:40 | Reading a type name and printing it back is the identity, and the six known names are never read as another name |
| PropCode.IncludesIsSubstring | schema.ts:66 | On a single type name, the chain's `includes` test is JavaScript's substring test |
| PropCode.KnownNamesApart | schema.ts:40 | None of the six type names is a substring of another, so `includes` on one known name is equality |
| PropCode.ZodPropCode | schema.ts:52-116 | Every import the validator records names `<Name>Schema` from the module `<prefix>/schemas/<Name>Schema` |
| PropCode.TypescriptPropCode | schema.ts:118-149 | Every import the type records names `<Name>` from the module `<prefix>/schemas/<Name>Schema` |
| PropCode.ZodPropLine | schema.ts:151-159 | The line exists exactly when the validator does, starts with `toJsObjKey(name): ` and records the validator's imports |
| PropCode.TypePropertyIsLiteral | schema.ts:62-63 | `@type` always gives `z.literal("<entityName>")`, whatever its definition |
| PropCode.StringCases | schema.ts:64-71 | A required string is `z.string()` even with format `ulid`; an optional `ulid` is `z.string().ulid()`; an optional string of any other format, or of none, is `z.string().optional()`, with the IRI comment exactly for `iri-reference` |
| PropCode.NullableStringFirst | schema.ts:64-67 | `["string","null"]` is `z.string().nullable()`, before the `ulid` and optional rules |
| PropCode.IntegerCases | schema.ts:78-83 | `integer` is `z.number()`, and `["integer","null"]` is `z.number().nullable()` |
| PropCode.ScalarCases | schema.ts:72-83 | `number` is `z.number()`, `boolean` is `z.boolean()`, `["boolean","null"]` is `z.boolean().nullable()`, and `null` is `z.null()`, none of them with the IRI comment |
| PropCode.UnionOfChildren | schema.ts:84-95 | Without a type, `anyOf` is taken before `allOf`; either gives `z.union([...])` of the children's validators, in order |
| PropCode.ZodAllElems | schema.ts:85-94 | On success, the union's pieces are the validators of the sub-definitions, one each, in order |
| PropCode.ArrayWrapsItems | schema.ts:96-131 | An array has a validator or type exactly when its items do, and wraps it in `z.array(...)` or `Array<...>` |
| PropCode.RefCodesAgree | schema.ts:100-143 | A plain reference gives `z.lazy(() => <Name>Schema)` importing `<Name>Schema`, and the type `<Name>` imported from the same module |
| PropCode.ObjectUnhandled | schema.ts:110-148 | An object type with no sub-definitions and no reference throws `Unhandled type` in both generators |
| PropCode.StringHasNoType | schema.ts:124-148 | A plain string has a validator but no TypeScript type (`Unhandled type`) |
| PropCode.ZodCoversTypescript | schema.ts:52-149 | For a definition without `allOf`, whenever a TypeScript type can be generated, so can a validator |
| Resolver.Fixup | schema.ts:233-238 | A property's `required` is true iff the raw schema has no `required` list or lists it; its `entityName` is the reference's; nothing else changes |
| Resolver.SubsToAnalyze | schema.ts:185-191 | Only sub-definitions with a reference are descended into, and the definition itself is when it has one |
| Resolver.Unwrap | schema.ts:281-289 | Collections are unwrapped through `hydra:member.items` down to a schema that has none |
| Resolver.Register | schema.ts:211-220 | `??=` adds a placeholder (`<name>Schema`, the description and the reference, no properties) only for a new name, and otherwise leaves the registry unchanged |
| Resolver.PutProperty | schema.ts:178-182 | Storing a property replaces its entry, appends a new name to the insertion order, and leaves every other schema and property unchanged |
| Resolver.MarkRecursive | schema.ts:170-176 | Closing a cycle sets `isRecursive` on that property and `hasRecursiveProp` on its schema, and changes nothing else |
| Resolver.SetCode | schema.ts:195-199 | Setting `zodPropCode` changes only that field of that property |
| Resolver.GuardHit | schema.ts:170-178 | When the guard fires, the property it names is already registered, because an ancestor stored it before descending |
| Resolver.Shrinks | schema.ts:171 | Pushing a key not yet on the path strictly decreases the number of keys left off the path, which is the termination measure |
| Resolver.RegisterValid | schema.ts:211-220 | Registering a word name keeps the registry invariant: entries keyed by their own name, with `zodName = name + "Schema"` |
| Resolver.PlaceValid | schema.ts:178-182 | Storing a fresh property keeps the registry invariant |
| Resolver.MarkValid | schema.ts:170-176 | Marking a property recursive keeps the registry invariant, including `hasRecursiveProp` on a schema with a recursive property |
| Resolver.SetCodeValid | schema.ts:195-199 | Setting the generated Zod line keeps the registry invariant that every set line is the property's `zodSchemaPropLine` |
| Resolver.Context.AnalyzeRoot | schema.ts:273-302 | `analyzeOpenApiSchema`: on success it returns the name `buildSchemaName` derives for the unwrapped schema, which is registered (with the `Item for` description when new); the registry only grows and keeps its invariant, and no property is left without its line |
| Resolver.Context.Analyze | schema.ts:273-302 | The same, under a non-empty guard path: properties under construction change at most in their recursion mark |
| Resolver.Context.BuildSchema | schema.ts:252-271 | On success the name is registered, with the given description when new; the registry keeps its invariant, only grows, and properties under construction keep their definition |
| Resolver.Context.BuildSchemaByRef | schema.ts:202-250 | The name is registered, with its reference and description when new; on success the reference's path names a definition, and every property except `@context` of that definition is in the schema afterwards |
| Resolver.Context.BuildEntries | schema.ts:228-247 | The loop over the definition's properties puts every property except `@context` into the schema |
| Resolver.Context.BuildEntry | schema.ts:233-246 | One entry: `@context` is skipped, any other property is in the schema afterwards |
| Resolver.Context.BuildSchemaProperty | schema.ts:161-200 | When the property's `Schema.prop` key is on the guard, the registry afterwards is `MarkRecursive` of the one before; otherwise, on success, the property holds the given definition and its `zodSchemaPropLine`. Either way the property is in its schema, and the registry keeps its invariant and only grows |
| Resolver.Context.RebuildProperty | schema.ts:178-199 | A property off the guard is stored, its reference sub-definitions analysed, and on success it holds the given definition and its `zodSchemaPropLine` |
| Resolver.Context.MarkGuard | schema.ts:170-176 | The registry after the guard fires is `MarkRecursive` of the registry before |
| Resolver.Context.Place | schema.ts:178-182 | The registry after storing is `PutProperty` of the one before, with an empty line and no recursion mark, and the property's key goes on the guard |
| Resolver.Context.AnalyzeSubs | schema.ts:185-193 | The reference sub-definitions are analysed under the extended path; the registry only grows, and properties under construction keep their definition |
| Resolver.Context.FillLine | schema.ts:195-199 | Succeeds exactly when `zodSchemaPropLine` does, and then sets that line as the property's `zodPropCode` |
| Resolver.Context.SetLine | schema.ts:195-199 | The registry after the assignment is `SetCode` of the one before |
| SchemaCode.SplitPartition | schema.ts:312-353 | The recursive and non-recursive property lists partition the insertion order without loss or duplication |
| SchemaCode.FlatHoldsAll | schema.ts:358-380 | A schema without recursive properties is one `z.object` holding every property line in insertion order |
| SchemaCode.NoRecursionFlat | schema.ts:382-389 | In a valid registry, a schema not marked recursive has no recursive property |
| SchemaCode.CompleteLines | schema.ts:369-375 | Once the registry is complete, every emitted line is `zodSchemaPropLine` of its property followed by `,` |
| SchemaCode.Describe | schema.ts:363 | The JSDoc description is emitted exactly when the description is non-empty |
| SchemaCode.TypeLine | schema.ts:312-321 | A recursive property's type line starts with `toJsObjKey(name): ` |
| SchemaCode.TypeLines | schema.ts:312-322 | On success there is one type line per recursive property |
| SchemaCode.RecordTypeLines | schema.ts:312-322 | The loop gives `TypeLines`, and records each line's imports against its own property, in order |
| SchemaCode.RecordSchemaImports | schema.ts:382-389 | `z` is recorded against the schema, then `ZodType` for a split module |
| SchemaCode.BuildSchemaCode | schema.ts:304-389 | Succeeds exactly when the schema is flat or all its type lines exist; the module has the schema's names and description, the flat or split body of its lines, and the import lines of the schema's and its properties' imports, excluding its own module |
| SchemaCode.SchemaPathInjective | schema.ts:396 | Distinct schemas are written to distinct paths |
| SchemaCode.BuildSchemasCode | schema.ts:391-403 | On success the output has exactly one path `<outputPath>/schemas/<zodName>.ts` per registered schema, each holding the module its registry entry gives: its names, its JSDoc description, and the flat or split body of its property and type lines |
| SchemaCode.AddSchemaFile | schema.ts:395-399 | One turn of the loop adds the module of the next schema (names, description, body) and keeps the modules already built; the schema's imports are recorded, and the new module's import lines are those of the schema's and its properties' imports at that point |
| SchemaCode.BuildSchemaFile | schema.ts:304-389 | `buildSchemaCode` of one registered schema: succeeds exactly when the schema is flat or all its type lines exist, and then gives the module its registry entry gives, with the import lines of its owners |
| Imports.ImportsBy.AddImportBy | imports.ts:12-22 | Appends one definition to the key's list, creating it on first use, changes no other key, and returns `""` |
| Imports.ImportsBy.AddAll | imports.ts:12-22 | Repeated `addImportBy` calls append their definitions in order |
| Imports.ImportsBy.Gather | imports.ts:27 | The gathered list contains every key's definitions; keys with none contribute nothing |
| Imports.GroupByPath | imports.ts:29-34 | The grouping loop gives `ByPath` and the first-appearance order of paths |
| Imports.PathOrderSpec | imports.ts:29-34 | Each path of the definitions is grouped exactly once |
| Imports.LastWins | imports.ts:29-34 | A path's slot holds the last definition for that symbol; all default imports share one slot, so the last one wins |
| Imports.PathLePreorder | imports.ts:24-42 | The path order that ignores one leading `~` is a total preorder |
| Imports.SymbolLePreorder | imports.ts:56 | The symbol order is a total preorder |
| Imports.LinePathsSpec | imports.ts:40-45 | The lines' paths are sorted with one leading `~` ignored, distinct, and exactly the grouped paths other than the excluded one |
| Imports.ImportLinesSpec | imports.ts:44-64 | The `i`-th line is the line of the `i`-th remaining path |
| Imports.NamedImportsSpec | imports.ts:51-59 | The named imports of a line are sorted by symbol and are a permutation of the non-default slots |
| Imports.DefaultFirst | imports.ts:46-63 | A default import comes first in its line, after `import `, rendered with its alias |
| Imports.RenderLines | imports.ts:44-64 | The rendering loop gives one line per non-excluded path, in order |
| Imports.ImportsBy.BuildImports | imports.ts:26-67 | `buildImports` is the newline join of the import lines of the gathered definitions |
| Utils.LcFirst | utils.ts:4-5 | The leading run of capitals is lower-cased and the rest is unchanged |
| Utils.UcFirst | utils.ts:7-8 | Only a leading lower-case letter is upper-cased; any other text is unchanged |
| Utils.PascalCaseShape | utils.ts:10-14 | The result has no separator left, with every non-alphanumeric followed by a non-letter, and does not start with a lower-case letter |
| Utils.PascalCaseOfSettled | utils.ts:10-14 | Text with no separator is one piece, so only its head is upper-cased; runs before a digit are kept |
| Utils.PascalCaseIdempotent | utils.ts:10-14 | `pascalCase` twice is `pascalCase` once |
| Utils.PascalCaseOfAlnum | utils.ts:10-14 | An alphanumeric word only has its first letter upper-cased |
| Utils.ToJsIdentifier | utils.ts:24-28 | The result consists of word characters only |
| Utils.ToJsIdentifierJoinsWords | utils.ts:27-28 | A run of non-word characters between two words disappears and upper-cases the next character |
| Utils.ToJsIdentifierOfWord | utils.ts:24-28 | A word is its own identifier |
| Utils.ToJsIdentifierIdempotent | utils.ts:24-28 | `toJsIdentifier` twice is `toJsIdentifier` once |
| Utils.ToJsObjKey | utils.ts:30-31 | The key is kept iff it starts with an ASCII letter, and is JSON-quoted otherwise |
| Utils.ApiPlatformTypeToTypescript | utils.ts:33-34 | `integer` becomes `number`; every other type is unchanged |
| Utils.StripSchemaSuffix | utils.ts:42 | A trailing `Schema` is removed, and only that |
| Utils.ImportFromZodSchemaName | utils.ts:36-43 | The import names the type (the name without `Schema`) too when asked, and comes from `<prefix>/schemas/<name>` |
| Utils.Singular | utils.ts:17-22 | The inflector's singular, except that `skus` becomes `sku` |
| Strings.QuoteRoundTrip | utils.ts:31 | A JSON string literal reads back as the quoted string |
| Strings.SplitJoin | schema.ts:22 | Splitting a join of separator-free pieces gives back the pieces |
| Sorting.SortBySorted | operation.ts:113-115 | The sort orders by any total preorder |
| Sorting.SortByStable | operation.ts:113-115 | Among elements ranked equal, the sort keeps the input order |
| Operations.BuildHookType | operation.ts:18-29 | `get` on a collection is `list`, `post` `create`, `put` `update`, `delete` `delete`; every other case, including `patch`, is `read` |
| Operations.BuildHookName | operation.ts:32-53 | The name starts with `use` and the `ucFirst`'d method, and ends in `Query` exactly for read and list hooks, `Mutation` otherwise |
| HookNames.HookNameOfPath | operation.ts:32-53 | For any path of `/<word>` segments and `/<items>/{<id>}` items, the hook name is `use`, the method, the PascalCase words of the path with each item's collection made singular, the whole made singular for a POST, then `Query` or `Mutation` |
| HookNames.PathNameOfSegs | operation.ts:35-39 | The name taken from such a path is the concatenation of the PascalCase of its words |
| HookNames.SingularizePath | operation.ts:36 | The item rewrite turns such a path into `/`-separated words, each item becoming the singular of its collection |
| HookNames.SplitSlashPath | operation.ts:37 | Splitting a word followed by `/`-separated words on non-word runs gives that word, then the words (for a path, an empty first piece) |
| Operations.SingularizeItemsNoParam | operation.ts:36 | A path without `{` is unchanged by the item rewrite |
| Operations.SingularizeItemsItem | operation.ts:36 | `/<items>/{<id>}` becomes `/` plus the singular of `<items>`, and the scan continues after it |
| Operations.SplitNonWord | operation.ts:37 | Every piece of the split consists of word characters |
| Operations.SplitNonWordJoin | operation.ts:37-39 | The pieces of the split, put back together, are the word characters of the path in order |
| Operations.BuildHookInfo | operation.ts:55-63 | The hook has the computed type and name; its description is the summary, else the description, else `<type> for the <METHOD> <path> endpoint`, and is never empty |
| Operations.HookArgTypeSupported | operation.ts:65-88 | The argument type exists exactly for the supported shapes, checked shape by shape; any other shape throws `To be implemented` |
| Operations.HookArgType | operation.ts:84-87 | An unsupported schema throws `To be implemented` |
| Operations.DefaultOnlyForIntegers | operation.ts:76-77 | The type reads `number = <default>` exactly for an integer with a truthy default |
| Operations.AlternativesNotDefault | operation.ts:66-73 | An enumeration of quoted values never reads as an integer default |
| Operations.HookArg | operation.ts:90-99 | The argument is the `tsName`, then `?` exactly when `required === false` with no default, then `: ` and the argument type |
| Operations.Rank | operation.ts:101-107 | The rank is 0 for required without default, 1 for required with a default, and 2 otherwise |
| Operations.RankLePreorder | operation.ts:113-115 | The comparator `rank(a) - rank(b)` is a total preorder |
| Operations.SortParameters | operation.ts:113-115 | The sorted parameters are in rank order, a permutation of the input, and in input order within a rank |
| Operations.Prepare | operation.ts:117-120 | One loop turn sets `tsName = toJsIdentifier(name)` and then `hookArgStr`, keeps the other fields, and fails exactly on an unsupported schema |
| Operations.PrepareAllOk | operation.ts:117-120 | The loop succeeds exactly when every parameter's schema is supported |
| Operations.PreparedElems | operation.ts:117-120 | When every parameter is supported, the prepared list has the same length and each element keeps its name and rank, has an identifier tsName and a supported schema |
| Operations.PreparedRanked | operation.ts:109-120 | After the analysis the parameters are in rank order and have the sorted input's names, each with an identifier tsName |
| Operations.TryMapOk | operation.ts:117-120 | A loop whose steps may throw succeeds exactly when every step does |
| Operations.TryMapElems | operation.ts:117-120 | On success, the loop gives one result per element, in order |
| Operations.Operation.AnalyzeParameters | operation.ts:109-121 | The parameters end as the analysed parameters: unchanged when absent, else sorted by rank and then prepared |
| Operations.Operation.PrepareEach | operation.ts:117-120 | The in-place loop succeeds exactly when every parameter is supported, and then leaves the prepared list |
| Operations.Operation.AnalyzeRequestBody | operation.ts:123-142 | No body changes nothing; a body without an ld+json schema sets `cantGenerateReason` and succeeds; otherwise `requestSchema` names the registered schema |
| Operations.Operation.AnalyzeResponseBody | operation.ts:144-159 | A missing 200 response, or one without an ld+json schema, changes nothing and succeeds; otherwise `responseSchema` names the registered schema |
| Operations.Operation.Analyze | operation.ts:161-174 | `entityName` is the first tag, `isCollection` is the collection test, the parameters and bodies are analysed, and `hook` is set last from those fields |
| Operations.Operation.SetEntity | operation.ts:166-167 | `entityName` is the first tag and `isCollection` the collection test |
| Operations.Operation.SetHook | operation.ts:173 | `hook` is `buildHookInfo` of the operation |
| Operations.IsCollection | operation.ts:6-10 | The operation is a collection iff its 200 response has an ld+json schema whose `hydra:member` type is `array` |
| Operations.IsCollectionAgrees | operation.ts:6-10 | Wherever the code as written does not throw, the corrected test gives the same answer |
| Repository.TemplatePathNoParam | repository.ts:21 | A path without placeholders is copied into the template unchanged |
| Repository.PlaceholderBindsArgument | repository.ts:21 | `{name}` becomes `${tsName}`, the hook argument of the parameter with that name |
| Repository.BuildPath | repository.ts:5-33 | The template is the rewritten path in backticks; the `serializeSearchParams` suffix and its import come exactly when there are query parameters |
| Repository.QueryKeyOf | repository.ts:185-190 | The query key is the quoted `plural(lcFirst(entityName))` followed by each parameter's `tsName`, in order; a missing entity name throws |
| Repository.QueryKeyLiteralDenotesName | repository.ts:16 | The key written for a non-simple query parameter reads back as the parameter's name |
| Repository.HookFnBody | repository.ts:185-200 | The body carries the operation's query key; every helper it calls is imported; it throws exactly when the hook or the entity name is missing, or a read or list hook has no response schema |
| Repository.BodyOf | repository.ts:35-183 | Every helper the body of each hook type calls is among the imports it records |
| Repository.OptionsType | repository.ts:227-243 | `options` is `UseApiQueryOptions<TQueryKey, typeof …>` for `get`, and `UseApiMutationOptions<any, any, any>` for every other method |
| Repository.HookArgs | repository.ts:216-244 | The arguments are each parameter's `hookArgStr`, then the form when there is a request schema, then `options` |
| Repository.HookImports | repository.ts:216-256 | A hook records the body's imports and `QueryKey` |
| Repository.HookDeclaration | repository.ts:246-257 | The declaration opens with a doc comment whose first line is the description |
| Repository.CommentOutJoin | repository.ts:259-264 | Commenting out puts `// ` at the start and after every newline, which is prefixing every line |
| Repository.CommentOutLines | repository.ts:259-264 | The lines of a commented-out text are its own lines, each behind `// ` |
| Repository.CommentOutEveryLine | repository.ts:259-264 | Every line of a commented-out text starts with `// ` |
| Repository.WithTodo | repository.ts:259-264 | An endpoint that cannot be generated starts with `// TODO `, and every line of it is commented out |
| Repository.HookText | repository.ts:246-266 | With a `cantGenerateReason` every line is commented out behind a `TODO` line; otherwise the hook opens with its description |
| Repository.HookCode | repository.ts:211-267 | A hook exists exactly when its body does, carries the operation's query key, imports every helper its body calls, and is commented out exactly when the endpoint cannot be generated |
| Repository.HookCodesFail | repository.ts:206-267 | One kept operation whose hook throws makes the whole file throw |
| Repository.RecordAllGrows | repository.ts:206-267 | Recording hooks only appends: every earlier import of every owner is still there, first |
| Repository.BuildHook | repository.ts:185-256 | On success the operation's `queryKey` is the hook's key and the hook's imports are recorded against the operation. On a throw: without a hook nothing changes; without an entity name the argument imports and `QueryKey` are recorded and the key is unchanged; otherwise the key is set before the read or list body throws, after recording its first helper |
| Repository.HookStep | repository.ts:211-267 | One hook is built; no operation's analysed fields change, and the key recorded on the operation is its query key |
| Repository.Visit | repository.ts:206-267 | One turn of the filter-and-map loop: a `get` without a response schema is skipped, any other operation adds its hook in order |
| Repository.BuildHooks | repository.ts:206-267 | The loop succeeds exactly when every kept operation's hook does, gives the hooks of the kept operations in order, and records their imports in that order |
| Repository.BuildRepositoryCode | repository.ts:202-274 | The file is the import lines of its operations, the banner, then the hooks of the kept operations in order, separated by blank lines; it throws exactly when one of those hooks throws |
| Repositories.FirstOrderSpec | repository.ts:277-281 | The groups are the distinct entity names, each once, in order of first appearance |
| Repositories.Positions | repository.ts:277-281 | A group holds exactly the positions of its entity's operations, in input order |
| Repositories.InOwnGroup | repository.ts:277-281 | Every operation is in the group of its own entity name |
| Repositories.GroupMembers | repository.ts:277-281 | A group holds only operations of its entity name |
| Repositories.GroupOfViews | repository.ts:277-281 | The operations selected for a group are among the operations, and their analysed fields are the group's |
| Repositories.RepositoryPathInjective | repository.ts:285-286 | Two groups share a path iff they are the same group |
| Repositories.HookCodesOk | repository.ts:206-267 | A list of hooks succeeds exactly when every kept operation's hook does |
| Repositories.AllGroupsOk | repository.ts:283-290 | When every group's hooks can be built, so can every kept operation's hook |
| Repositories.GroupErr | repository.ts:283-290 | A group whose hooks throw makes the whole generation throw |
| Repositories.BuildGroup | repository.ts:284-289 | A group's file is `buildRepositoryCode` of its operations, in input order |
| Repositories.FilesStep | repository.ts:283-290 | Adding a group's file keeps the files of the earlier, distinct groups |
| Repositories.FilesComplete | repository.ts:283-292 | When every group is done, the paths are exactly one per entity name, each holding that group's file |
| Repositories.AddGroup | repository.ts:284-289 | One turn of the loop adds the file of the next group |
| Repositories.BuildFiles | repository.ts:283-290 | The loop builds the file of every group of the order, or throws only when some kept operation's hook throws |
| Repositories.BuildRepositoriesCode | repository.ts:276-293 | Succeeds exactly when every kept operation's hook can be built; the paths are exactly `<outputPath>/repositories/<entity>Repository.ts`, one per entity name, each holding the hooks of that entity's kept operations in input order |

## Left out

- `pluralize` is a foreign library. `plural` and `singular` are the two functions of an `Inflector` parameter, with only the `skus` patch modelled.
- `localeCompare` is locale-dependent. Paths and symbols are compared by code-unit order instead, which is a total order.
- `JSON.stringify` is modelled only on strings, escaping `"` and `\` but no control characters, and on the integer, string and boolean values of parameter enums and defaults. Floating-point defaults are not modelled.
- JavaScript enumerates integer-like object keys first. The model enumerates the keys of `importsByPath`, the import slots and `operationsByEntityName` in insertion order.
- Console output (`console.log`, `console.error`, `console.debug`) has no effect on the result and is left out.
- The template text around the generated fragments is not reproduced character for character: blank lines, indentation, the generated-by banner with its emoji, and the recursive-schema comments. Schema modules are structured values holding their fragments. The repository text is reproduced up to the banner line.
- The network fetch of the API document, the command-line entry point, the operation filter and the file writes are not part of this model. The document is a parameter.
- `context.schemasCode` and `context.repositoriesCode` are not assigned. `SchemaCode.BuildSchemasCode` and `Repositories.BuildRepositoriesCode` return the map the code stores there.
- Reference paths are split on `/` without the `~0` / `~1` unescaping of section 4 of RFC 6901, as in the code. A path that names no definition throws `TypeError`.
- `typescriptPropCode` has no `allOf` case. `PropCode.ZodCoversTypescript` is stated for definitions without `allOf`.
- The state after a thrown error is not described beyond the registry invariant. The code does not catch errors, so a throw ends the run.
- An undefined `description` argument is modelled as the empty string.
- Operations.Operation.AnalyzeParameters: the in-place `Array.prototype.sort` is modelled as reassigning the parameters to the sorted sequence (a stable insertion sort). The swaps of the engine's sort are not modelled.
- Repositories.BuildRepositoriesCode: the import lines of each file are stated to exist and to come first, but their text is not spelled out. They depend on the imports recorded by earlier groups (`Repositories.FileFor`).
- Repository.BuildRepositoryCode: does not restate the query key left on each operation. `Repository.BuildHook` states it per operation.
- Resolver.Context.Analyze: states the registry invariant, the growth of the registry, the returned name and the completeness of every property line. The exact set of schemas reached by the walk is not enumerated.
- Resolver.Context.BuildSchemaByRef: states that every property of the definition is in the schema. It does not state which definition each property ends with when one is reached again through a cycle.
- The `Unhandled hook type` throw of `buildHookFnBody` is unreachable in the model: the hook type has exactly the five cases the code dispatches on.
- Operations.Operation.SetEntity: sets `isCollection` with the corrected test `Operations.IsCollection` (first row of Findings). The code as written throws a `TypeError` at operation.ts:7 for a 200 response without `content`; the model does not throw there.
- Operations.Operation.Analyze: through `SetEntity`, states `isCollection == IsCollection(responses)` and does not throw on a 200 response without `content`, where the code as written does (`Operations.IsCollectionThrowsOnPlainResponse`).
- Repository.BuildPath: writes the key of a non-simple query parameter with the corrected `Repository.QueryKeyLiteral` (second row of Findings). For `_page` the code as written gives `"\"_page\""`, the model `"_page"`.
- Repository.BodyOf: the delete body records `Repository.DeleteImports`, which includes the `useApiMutation` it calls (third row of Findings). The code as written records `Repository.DeleteImportsAsWritten`, without it.
- Repository.HookFnBody: "every helper the body calls is imported" holds for the corrected delete body. For the code as written it holds for the create, update, read and list bodies only (`Repository.DeleteBodyMissesImport`).
- Repository.HookCode: "imports every helper its body calls" holds for the corrected delete body; the code as written misses `useApiMutation` in a delete hook.
- JavaScript also enumerates integer-like keys first in `schema.properties`, `propertiesByName` and `schemasByName`. The model keeps insertion order there, so a property or schema named `0` comes first in the program's output but in its place in the model's.
- An absent `tags` field is not represented: `Operations.Operation.tags` is a sequence, so the `TypeError` of `operation.tags[0]` on a missing field (operation.ts:166) is not modelled. An empty list gives no entity name, as in the code.
- The regular expressions are hand-written scanners for the few patterns used, not a general engine. Characters outside ASCII are neither letters nor word characters, as in JavaScript without the `u` flag.

## Findings

| source | as written | input that shows it | evidently intended | confidence | as-written member | corrected member |
|---|---|---|---|---|---|---|
| operation.ts:6-10 | `responses["200"]?.content["application/ld+json"].schema` makes only the first access optional | a 200 response with no `content`, e.g. `{ "200": { "description": "OK" } }`, throws a `TypeError` before `analyzeResponseBody` (operation.ts:148-152) can skip it gracefully | every access optional: such an operation is not a collection | medium, not executed | Operations.IsCollectionAsWritten, Operations.IsCollectionThrowsOnPlainResponse | Operations.IsCollection, Operations.IsCollectionAgrees |
| repository.ts:16 | the key of a non-simple query parameter is `JSON.stringify(toJsObjKey(name))` | a query parameter named `_page`: `toJsObjKey` already quotes it, so the object key becomes the string `"_page"` with its quotes | the key is the parameter name, quoted once | high, not executed | Repository.QueryKeyLiteralAsWritten, Repository.QueryKeyLiteralAsWrittenQuotesTwice | Repository.QueryKeyLiteral, Repository.QueryKeyLiteralDenotesName |
| repository.ts:130-159 | `buildDeleteHookFnBody` calls `useApiMutation` without recording its import | an entity whose only operation is a DELETE: its repository file calls `useApiMutation` but never imports it | the delete body imports `useApiMutation` from the client, as the create and update bodies do | high, not executed | Repository.DeleteImportsAsWritten, Repository.DeleteBodyMissesImport | Repository.DeleteImports, Repository.HookFnBody |
