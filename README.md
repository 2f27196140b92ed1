# graphqlgen TypeScript generator, modelled in Dafny

This project models the TypeScript resolver generator of graphqlgen
(`packages/graphqlgen/src/generators/ts-generator.ts`). `generate` takes a list of GraphQL type
records, a model map and a context path. It returns one text with these parts:

- a header of imports;
- one `export namespace <T>Resolvers { … }` per object type. Each holds the default resolvers, the
  interface of an associated input type, the `Args<Field>` interfaces, the `<Field>Resolver`
  function types and the aggregate `Type` interface;
- an `IResolvers` interface with one entry per object type.

The run aborts in three cases:

- a model file cannot be read;
- a model file declares no interface with the model's name;
- the input type an association names cannot be found.

The model has one module per concern:

- `Text` (`text.dfy`) covers joining, line splitting and trimming. It defines the *code lines* of a
  text: its lines with surrounding spaces trimmed and blank lines dropped. It also holds the
  template lemmas that compute the code lines of a template literal part by part.
- `Schema` (`schema.dfy`) holds the records the generator reads and the model map. The model map is
  an association list kept in key order. The module also defines the `Result` type of a run and the
  errors that abort it. It models `Array.prototype.filter` and a `map` whose callback may throw.
- `TypeMapper` (`type_mapper.dfy`) models `getTypeFromGraphQLType`, `getModelName` and
  `printFieldLikeType`. It also has a reader for printed type expressions.
- `Associations` (`associations.dfy`) models the two indexes `generate` builds, which are reduces
  with object spread, and the array used as a property key.
- `ScalarResolvers` (`scalar_resolvers.dfy`) models `renderScalarResolvers`. It is an imperative
  method that fills `nodes` and `childNodes` with push loops, then runs a `find` loop. It is proved
  equal to the function `DefaultResolvers`. The model file is given already parsed: its top-level
  syntax nodes, keyed by absolute path.
- `Render` (`render.dfy`) holds the per-field and per-type renderers.
- `Generator` (`generator.dfy`) models `renderHeader`, `renderNamespace(s)`, `renderIResolvers` and
  `generate`.

Each template is reproduced literally, with `"\n"` for both `os.EOL` and the line breaks inside
template literals. The contracts about rendered text are stated on its code lines, so they say
which lines appear and in what order, not how they are indented.

Two facts about the code deserve a note:

- **Several associated input types.** The association of an object type is the list of *all*
  input-typed argument type names of its fields, in field order and then argument order. That
  list is used as a property key of the input type index at `ts-generator.ts:129` and `:131`.
  JavaScript converts an array key to the comma-join of its elements, so a list of two or more
  names (even the same name twice) finds no input type, and reading `.name` of `undefined`
  throws. The model returns `Err(UndefinedInputType(key))`, and `Render.SeveralAssociationsFail`
  and `Generator.SeveralAssociationsAbortRun` prove that the run aborts.
- **Argument interface names.** An argument interface is named `Args` followed by the
  capitalized field name: `Args<Cap(field)>`.

## Model

| member | source | states |
|---|---|---|
| TypeMapper.GetTypeFromGraphQLType | packages/graphqlgen/src/generators/ts-generator.ts:344-355 | The result is always `number`, `boolean` or `string`. It is `number` exactly for `Int`/`Float` and `boolean` exactly for `Boolean`. Every other name, custom scalars included, gives `string`. |
| TypeMapper.GetModelName | packages/graphqlgen/src/generators/ts-generator.ts:313-324 | A type without a model entry gets `{}`. A type with an entry gets the `modelTypeName` of an entry with that key. |
| TypeMapper.ModelNameEmptyIffUnmapped | packages/graphqlgen/src/generators/ts-generator.ts:313-324 | When model type names are identifiers, `{}` comes back exactly when the type has no model entry. |
| TypeMapper.PrintFieldLikeType | packages/graphqlgen/src/generators/ts-generator.ts:326-342 | All three branches print the base type, then `[]` for a list, then the null suffix (written with no space before the bar) for a type that is not required. The base is chosen in branch order: scalar mapping, then input type name, then model name. |
| TypeMapper.ParsePrintedType | packages/graphqlgen/src/generators/ts-generator.ts:326-342 | Reading a printed type back, stripping the null suffix and then `[]`, recovers the base type, the list flag and the nullability. The array suffix therefore belongs to the element and the null suffix to the whole. |
| Schema.Lookup | packages/graphqlgen/src/generators/ts-generator.ts:151 | `modelMap[type.name]` is undefined exactly when no entry has that key. Otherwise it is the model of an entry with that key. `getModelName` does the same lookup at line 314. |
| Schema.MapResult | packages/graphqlgen/src/generators/ts-generator.ts:102-112 | A `map` whose callback may throw succeeds exactly when every callback succeeds, and then gives the results in order. Otherwise it fails with the error of the first element whose callback throws. |
| Associations.InputTypesMap | packages/graphqlgen/src/generators/ts-generator.ts:39-46 | The input type index; its contract is `Associations.InputTypesMapSpec`: a key exactly for each input type name, holding the last input type of that name. |
| Associations.TypeToInputTypeAssociation | packages/graphqlgen/src/generators/ts-generator.ts:49-68 | The association index; its contract is `Associations.AssociationSpec`: a key exactly for each object type with an input-typed argument, holding its full non-empty list of input argument type names. |
| Associations.InputArgumentTypeNames | packages/graphqlgen/src/generators/ts-generator.ts:62-64 | The names collected from a field's arguments are the type names of its input-typed arguments, one per such argument and in argument order (the filter followed by the map). A name is collected exactly when some input-typed argument has it. |
| Associations.InputArgNamesAppend | packages/graphqlgen/src/generators/ts-generator.ts:60-66 | The flattened list follows field order: the list of `a + b` is the list of `a` followed by the list of `b`. |
| Associations.InputArgNamesMembership | packages/graphqlgen/src/generators/ts-generator.ts:60-66 | A name is in a type's list exactly when some argument of some field is input-typed with that type name. |
| Associations.HasAssociationIffNames | packages/graphqlgen/src/generators/ts-generator.ts:50-56 | A type passes the association filter exactly when it is an object type and its list of input argument type names is not empty. |
| Associations.IndexFiltered | packages/graphqlgen/src/generators/ts-generator.ts:39-68 | A filter followed by a reduce with object spread keeps, for each name, the value of the last element with that name that passed the filter. Names that no such element has keep the accumulator's value. |
| Associations.InputTypesMapSpec | packages/graphqlgen/src/generators/ts-generator.ts:39-46 | A name is a key of the input type index exactly when an input type has that name. Its value is an input type of that name, with no later input type of the same name. |
| Associations.AssociationSpec | packages/graphqlgen/src/generators/ts-generator.ts:49-68 | A name is a key of the association index exactly when an object type of that name has a field with an input-typed argument. Non-object types never appear. The value is non-empty and is that type's full list of input argument type names, in field order and then argument order. |
| Associations.AssociationKey | packages/graphqlgen/src/generators/ts-generator.ts:129 | The array used as a property key; its contract is `Associations.SingletonKey` (one name is that name) and `Associations.SeveralNamesFindNoInputType` (two or more names find no input type). |
| Associations.SingletonKey | packages/graphqlgen/src/generators/ts-generator.ts:129 | A one-name association used as a key is that name. |
| Associations.SeveralNamesFindNoInputType | packages/graphqlgen/src/generators/ts-generator.ts:129 | In a schema with well-formed names, an association of two or more names, used as a key, finds no input type. |
| ScalarResolvers.DefaultResolvers | packages/graphqlgen/src/generators/ts-generator.ts:147-195 | The default resolvers block; `ScalarResolvers.RenderScalarResolvers` is proved equal to it, and `UnmappedTypeGetsEmptyMap`, `MissingInterfaceAborts` and `DefaultResolversLines` state its three outcomes. |
| ScalarResolvers.RenderScalarResolver | packages/graphqlgen/src/generators/ts-generator.ts:197-202 | One property entry `name: parent => parent.name,`; `ScalarResolvers.EntriesOneLine` shows each entry is one line, and `DefaultResolversLines` places one per property signature in member order. |
| ScalarResolvers.FindInterface | packages/graphqlgen/src/generators/ts-generator.ts:172-177 | `find` gives nothing exactly when no top-level node is an interface declaration with the model's name. Otherwise it gives the first such node. |
| ScalarResolvers.PropertyEntries | packages/graphqlgen/src/generators/ts-generator.ts:189-192 | The entries are exactly `name: parent => parent.name,` for the property-signature members. Other members are skipped. |
| ScalarResolvers.PropertyEntriesAppend | packages/graphqlgen/src/generators/ts-generator.ts:189-192 | Entries follow member order. |
| ScalarResolvers.RenderScalarResolvers | packages/graphqlgen/src/generators/ts-generator.ts:147-195 | The method with its push and find loops returns what `DefaultResolvers` specifies: the empty map, a read error, the missing-interface error, or the block of entries. |
| ScalarResolvers.UnmappedTypeGetsEmptyMap | packages/graphqlgen/src/generators/ts-generator.ts:150-154 | A type without a model gets exactly `export const defaultResolvers = {}`, and no file is consulted. |
| ScalarResolvers.MissingInterfaceAborts | packages/graphqlgen/src/generators/ts-generator.ts:156-181 | An unreadable model file aborts with a read error that names the path. A file without an interface of the model's name aborts with an error whose message ends with that name. |
| ScalarResolvers.BlockLines | packages/graphqlgen/src/generators/ts-generator.ts:189-194 | The block's code lines are its opening line, the entries one per line, and the closing brace. |
| ScalarResolvers.DefaultResolversLines | packages/graphqlgen/src/generators/ts-generator.ts:172-194 | When the first matching interface is found, the result is the opening line, one entry per property-signature member in member order, and `}`. |
| Render.ArgsRef | packages/graphqlgen/src/generators/ts-generator.ts:257-259 | The args type of a resolver is `{}` exactly when the field has no arguments. Otherwise it is `Args<Cap(field)>`. |
| Render.RenderInputArgInterface | packages/graphqlgen/src/generators/ts-generator.ts:217-219 | The argument interface is the empty text exactly when the field has no arguments. |
| Render.ArgInterfaceLines | packages/graphqlgen/src/generators/ts-generator.ts:213-234 | A field with arguments declares `export interface Args<Cap> {`, then one `arg: printFieldLikeType(arg)` line per argument in order, then `}`. A field without arguments declares nothing. |
| Render.RenderInputArgInterfaces | packages/graphqlgen/src/generators/ts-generator.ts:204-211 | The argument interfaces of a type; its contract is `Render.ArgInterfacesLines`: those of its fields in field order. |
| Render.ArgInterfacesLines | packages/graphqlgen/src/generators/ts-generator.ts:204-211 | A type's argument interfaces are those of its fields, in field order. |
| Render.RenderResolverFunctionInterface | packages/graphqlgen/src/generators/ts-generator.ts:245-266 | One resolver function type; its contract is `Render.FunctionInterfaceLines`, its six code lines in order. |
| Render.RenderResolverFunctionInterfaces | packages/graphqlgen/src/generators/ts-generator.ts:236-243 | The resolver function types of a type; its contract is `Render.FunctionInterfacesLines`: one per field, in field order. |
| Render.FunctionInterfaceLines | packages/graphqlgen/src/generators/ts-generator.ts:245-266 | The resolver function type reads, in order: `export type <Cap>Resolver = (`, the parent model, the args type, `ctx: Context,`, `info: GraphQLResolveInfo,` and the result line `) => T`, a bar, `Promise<T>`. |
| Render.FunctionInterfacesLines | packages/graphqlgen/src/generators/ts-generator.ts:236-243 | A type's resolver function types are one per field, in field order. |
| Render.RenderResolverTypeInterface | packages/graphqlgen/src/generators/ts-generator.ts:282-299 | One `Type` member; its contract is `Render.TypeMemberLines`, and `Render.ResolverRenderingsAgree` ties it to the function type of the same field. |
| Render.RenderResolverTypeInterfaces | packages/graphqlgen/src/generators/ts-generator.ts:269-280 | The `Type` interface; its contract is `Render.TypeInterfaceLines`: the members in field order between `export interface Type {` and `}`. |
| Render.TypeMemberLines | packages/graphqlgen/src/generators/ts-generator.ts:282-299 | A `Type` member reads `<field>: (` followed by the same signature lines. |
| Render.TypeInterfaceLines | packages/graphqlgen/src/generators/ts-generator.ts:269-280 | The `Type` interface holds one inline signature per field, in field order, between `export interface Type {` and `}`. |
| Render.ResolverRenderingsAgree | packages/graphqlgen/src/generators/ts-generator.ts:254-298 | A field's resolver function type and its `Type` member have six code lines each. They are the same after the head: same parent, same args type, same result. |
| Render.ArgsReferenceDeclared | packages/graphqlgen/src/generators/ts-generator.ts:222-291 | For a field with arguments, both resolver signatures name `Args<Cap(field)>`, which is exactly the interface the field's argument interface declares. For a field without arguments, both say `{}` and nothing is declared. |
| Render.ResultTypeReadsBack | packages/graphqlgen/src/generators/ts-generator.ts:262-265 | The result is the union of `T` and `Promise<T>` with the same `T` on both sides. That `T` reads back as the field's base type, list flag and nullability. |
| Render.RenderInputTypeInterface | packages/graphqlgen/src/generators/ts-generator.ts:126-136 | A type without an association gets nothing. The block fails exactly when the association key finds no input type, and then with that key. |
| Render.InputTypeBlock | packages/graphqlgen/src/generators/ts-generator.ts:128-134 | The input type block; its contract is `Render.InputTypeBlockLines`: declaration, comma-joined field entries on one line, closing brace. |
| Render.InputTypeBlockLines | packages/graphqlgen/src/generators/ts-generator.ts:128-134 | The input type block is `export interface <Input> {`, the field entries `name: scalar mapping` comma-joined on one line (none when there are no fields), and `}`. |
| Render.SingleAssociationLines | packages/graphqlgen/src/generators/ts-generator.ts:126-134 | An association that is a single input type name `n` renders the interface of the input type `n`, declared under the name `n`. |
| Render.SeveralAssociationsFail | packages/graphqlgen/src/generators/ts-generator.ts:127-131 | An association of two or more names aborts with the comma-joined key. |
| Render.UnassociatedTypeRendersNothing | packages/graphqlgen/src/generators/ts-generator.ts:126-135 | If no object type of that name takes an input-typed argument, no input interface block appears. |
| Generator.RenderHeader | packages/graphqlgen/src/generators/ts-generator.ts:80-95 | The header; its contract is `Generator.HeaderLines`: banner, the two fixed imports, one import per model in key order. |
| Generator.HeaderLines | packages/graphqlgen/src/generators/ts-generator.ts:80-95 | The header is the `DO NOT EDIT` banner, the `GraphQLResolveInfo` and `Context` imports, and one import per model in model map key order. |
| Generator.RenderNamespace | packages/graphqlgen/src/generators/ts-generator.ts:115-145 | The default resolvers are evaluated first, and their error wins. The input type interface comes next. The namespace renders exactly when both succeed. |
| Generator.NamespaceLines | packages/graphqlgen/src/generators/ts-generator.ts:121-144 | A namespace is `export namespace <T>Resolvers {`, then in fixed order: the default resolvers, the input type interface, the argument interfaces, the resolver function types, the `Type` interface, and `}`. |
| Generator.RenderIResolvers | packages/graphqlgen/src/generators/ts-generator.ts:302-311 | The `IResolvers` interface; its contract is `Generator.IResolversLines`, and `Generator.IResolversReferToNamespaces` ties each entry to its namespace. |
| Generator.IResolversLines | packages/graphqlgen/src/generators/ts-generator.ts:302-311 | `IResolvers` has exactly one `N: NResolvers.Type` line per object type `N`, in schema order. |
| Generator.ObjectTypesInOrder | packages/graphqlgen/src/generators/ts-generator.ts:102-103 | Only object types are rendered, in their input-list order. |
| Generator.GenerateSucceedsIff | packages/graphqlgen/src/generators/ts-generator.ts:70-77 | A run succeeds exactly when every object type's namespace renders. Otherwise it fails with the error of the first object type whose namespace aborts. |
| Generator.RenderNamespaces | packages/graphqlgen/src/generators/ts-generator.ts:97-113 | The namespaces text; its contract is `Generator.NamespacesLines` (each object type's namespace in schema order) and, for failure, `Generator.GenerateSucceedsIff`. |
| Generator.NamespacesLines | packages/graphqlgen/src/generators/ts-generator.ts:97-113 | The namespaces text has each object type's namespace lines, in schema order. |
| Generator.Generate | packages/graphqlgen/src/generators/ts-generator.ts:37-78 | A run; its contracts are `Generator.GenerateSucceedsIff` (when it succeeds, and the first error otherwise), `Generator.GenerateLines` (the output's code lines) and the two abort lemmas below. |
| Generator.GenerateLines | packages/graphqlgen/src/generators/ts-generator.ts:70-77 | The output's code lines are the header's, then every namespace's in schema order, then those of `IResolvers`. |
| Generator.IResolversReferToNamespaces | packages/graphqlgen/src/generators/ts-generator.ts:121-122 | Each `IResolvers` entry `N: NResolvers.Type` names a namespace of the output that opens as `NResolvers` and declares `export interface Type {`. |
| Generator.MissingInterfaceAbortsRun | packages/graphqlgen/src/generators/ts-generator.ts:172-181 | An object type with a model whose file is unreadable, or declares no interface of the model's name, aborts the run. |
| Generator.SeveralAssociationsAbortRun | packages/graphqlgen/src/generators/ts-generator.ts:127-131 | An object type whose fields take two or more input-typed arguments aborts the run. |

## Left out

- `format` (prettier with a `console.log` fallback) is a foreign library call and I/O. The model stops at the unformatted text `generate` returns.
- `fs.readFileSync`, `path.basename`, `ts.createSourceFile` and `forEachChild` are modelled only by their result. The model file is given as a map from absolute path to the top-level syntax nodes of its parse; a path that is not a key is a file that cannot be read. A node carries its kind, its name and its children.
- `capitalize` (an npm package) is a parameter `cap: string -> string`. Only what follows from using the same function at every call site is proved, assuming it maps names to names.
- `os.EOL` is fixed to `"\n"`.
- Interface names are compared by `name.escapedText` and property names read by `name.text`. The model gives each node one name and does not distinguish the two.
- JavaScript object keys are modelled as plain string maps. Prototype keys such as `constructor` that a plain object literal already has are not modelled.
- The types of `./types` and `../source-helper` are not part of this model. The records here have only what the generator reads; the `isEnum` and `isUnion` flags it never reads are left out.
- The model map is an association list in key order. Lookup takes the first entry with a key. Distinct keys are required only where a lemma relates an entry to its lookup.
- Lemmas about rendered text assume well-formed names: identifiers for type, field and argument names and model type names, and no line break in paths. The schema parser and the configuration deliver those names; the generator itself does not check them.
