/** generate: the header, one resolver namespace per object type and the IResolvers
    interface, with the two name indexes built from the schema first. */
module Generator {
  import opened Text
  import opened Schema
  import opened TypeMapper
  import opened Associations
  import opened ScalarResolvers
  import opened Render

  // ---------------------------------------------------------------------------
  // Header

  const DoNotEdit: string := "/* DO NOT EDIT! */"

  const InfoImport: string := "import { GraphQLResolveInfo } from 'graphql'"

  function ContextImport(contextPath: string): string
  {
    "import { Context } from '" + contextPath + "'"
  }

  function ImportLine(m: Model): string
  {
    "import { " + m.modelTypeName + " } from '" + m.importPathRelativeToOutput + "'"
  }

  /** One import per model, in the key order of the model map. */
  function ModelImports(mm: ModelMap): seq<string>
  {
    seq(|mm|, i requires 0 <= i < |mm| => ImportLine(mm[i].model))
  }

  /** renderHeader */
  function RenderHeader(args: GenerateArgs): string
  {
    "" + NL + DoNotEdit + NL + InfoImport + NL + ContextImport(args.contextPath) + NL +
    Join(NL, ModelImports(args.modelMap)) + NL + "  "
  }

  lemma DoNotEditLine()
    ensures CodeLines(DoNotEdit) == [DoNotEdit]
  {
    CodeLinesOfLine(DoNotEdit);
  }

  lemma InfoImportLine()
    ensures CodeLines(InfoImport) == [InfoImport]
  {
    CodeLinesOfLine(InfoImport);
  }

  lemma ContextImportLine(contextPath: string)
    requires '\n' !in contextPath
    ensures CodeLines(ContextImport(contextPath)) == [ContextImport(contextPath)]
  {
    CodeLinesOfLine(ContextImport(contextPath));
  }

  lemma ImportsLines(mm: ModelMap)
    requires ModelsNamed(mm)
    ensures CodeLines(Join(NL, ModelImports(mm))) == ModelImports(mm)
  {
    var xs := ModelImports(mm);
    forall i | 0 <= i < |xs|
      ensures OneLine(xs[i])
    {
      assert '\n' !in mm[i].model.modelTypeName by {
        NameIsOneLine(mm[i].model.modelTypeName);
      }
    }
    CodeLinesJoin(xs);
    FlatCodeOneLines(xs);
  }

  /** The header is the do-not-edit banner, the GraphQLResolveInfo and Context imports, and one
      import per model in key order. */
  lemma HeaderLines(args: GenerateArgs)
    requires ModelsNamed(args.modelMap) && '\n' !in args.contextPath
    ensures CodeLines(RenderHeader(args)) ==
              [DoNotEdit, InfoImport, ContextImport(args.contextPath)] + ModelImports(args.modelMap)
  {
    DoNotEditLine();
    InfoImportLine();
    ContextImportLine(args.contextPath);
    ImportsLines(args.modelMap);
    BlankLines();
    ThreeLinesThenBody("", DoNotEdit, InfoImport, ContextImport(args.contextPath), Join(NL, ModelImports(args.modelMap)), "  ",
                       [DoNotEdit, InfoImport, ContextImport(args.contextPath)], ModelImports(args.modelMap));
  }

  // ---------------------------------------------------------------------------
  // Namespaces

  function NamespaceHead(t: TypeObject): string
  {
    "export namespace " + t.name + "Resolvers {"
  }

  /** The namespace text around its rendered parts. */
  function NamespaceBlock(t: TypeObject, defaults: string, inputIf: string, argIfs: string, fnIfs: string, typeIf: string): string
  {
    ("    " + NamespaceHead(t)) + NL + "" + NL +
    ("    " + defaults) + NL + "" + NL +
    ("    " + inputIf + "  ") + NL + "" + NL +
    ("    " + argIfs) + NL + "" + NL +
    ("    " + fnIfs) + NL + "" + NL +
    ("    " + typeIf) + NL + "  }" + NL + "  "
  }

  /** renderNamespace: the default resolvers are rendered first, then the input type interface;
      either can abort the run. */
  function RenderNamespace(t: TypeObject, assoc: map<string, seq<string>>, inputs: map<string, TypeObject>,
                           mm: ModelMap, files: SourceFiles, cap: string -> string): (r: Result<string>)
    ensures DefaultResolvers(t, mm, files).Err? ==> r == Err(DefaultResolvers(t, mm, files).error)
    ensures DefaultResolvers(t, mm, files).Ok? && RenderInputTypeInterface(t, assoc, inputs).Err? ==>
              r == Err(RenderInputTypeInterface(t, assoc, inputs).error)
    ensures r.Ok? <==> DefaultResolvers(t, mm, files).Ok? && RenderInputTypeInterface(t, assoc, inputs).Ok?
  {
    var defaults :- DefaultResolvers(t, mm, files);
    var inputIf :- RenderInputTypeInterface(t, assoc, inputs);
    Ok(NamespaceBlock(t, defaults, inputIf, RenderInputArgInterfaces(t, mm, cap),
                      RenderResolverFunctionInterfaces(t, mm, cap), RenderResolverTypeInterfaces(t, mm, cap)))
  }

  lemma NamespaceHeadAt(t: TypeObject)
    requires IsName(t.name)
    ensures CodeLines("    " + NamespaceHead(t)) == [NamespaceHead(t)]
  {
    TemplateLine("    " + NamespaceHead(t), "    ", NamespaceHead(t));
  }

  lemma NamespaceBlankLines()
    ensures CodeLines("") == [] && CodeLines("  ") == [] && CodeLines("  }") == ["}"]
  {
    BlankLines();
    CloseBraceLine();
  }

  /** The namespace block: its head, the code lines of each part in order, its closing brace. */
  lemma NamespaceBlockLines(t: TypeObject, defaults: string, inputIf: string, argIfs: string, fnIfs: string, typeIf: string)
    requires IsName(t.name)
    ensures CodeLines(NamespaceBlock(t, defaults, inputIf, argIfs, fnIfs, typeIf)) ==
              [NamespaceHead(t)] + CodeLines(defaults) + CodeLines(inputIf) + CodeLines(argIfs) +
              CodeLines(fnIfs) + CodeLines(typeIf) + ["}"]
  {
    NamespaceHeadAt(t);
    NamespaceBlankLines();
    CodeLinesIndent("    ", defaults);
    CodeLinesIndent("    ", inputIf);
    CodeLinesTrailing("    " + inputIf, "  ");
    CodeLinesIndent("    ", argIfs);
    CodeLinesIndent("    ", fnIfs);
    CodeLinesIndent("    ", typeIf);
    FivePartsBlock("    " + NamespaceHead(t), "", "    " + defaults, "", "    " + inputIf + "  ", "",
                   "    " + argIfs, "", "    " + fnIfs, "", "    " + typeIf, "  }", "  ",
                   NamespaceHead(t), CodeLines(defaults), CodeLines(inputIf), CodeLines(argIfs),
                   CodeLines(fnIfs), CodeLines(typeIf), "}");
  }

  /** A rendered namespace opens with `export namespace <T>Resolvers {`, holds in this order the
      default resolvers, the input type interface, the argument interfaces, the resolver function
      types and the `Type` interface, and closes with a brace. */
  lemma NamespaceLines(t: TypeObject, assoc: map<string, seq<string>>, inputs: map<string, TypeObject>,
                       mm: ModelMap, files: SourceFiles, cap: string -> string)
    requires TypeNamed(t) && ModelsNamed(mm) && FieldsCapNamed(cap, t)
    requires RenderNamespace(t, assoc, inputs, mm, files, cap).Ok?
    ensures CodeLines(RenderNamespace(t, assoc, inputs, mm, files, cap).value) ==
              [NamespaceHead(t)] +
              CodeLines(DefaultResolvers(t, mm, files).value) +
              CodeLines(RenderInputTypeInterface(t, assoc, inputs).value) +
              Concat(ArgInterfaceCodeEach(t, mm, cap)) +
              Concat(FunctionInterfaceCodeEach(t, mm, cap)) +
              (["export interface Type {"] + Concat(TypeMemberCodeEach(t, mm, cap)) + ["}"]) +
              ["}"]
  {
    NamespaceBlockLines(t, DefaultResolvers(t, mm, files).value, RenderInputTypeInterface(t, assoc, inputs).value,
                        RenderInputArgInterfaces(t, mm, cap), RenderResolverFunctionInterfaces(t, mm, cap),
                        RenderResolverTypeInterfaces(t, mm, cap));
    ArgInterfacesLines(t, mm, cap);
    FunctionInterfacesLines(t, mm, cap);
    TypeInterfaceLines(t, mm, cap);
  }

  /** Array.prototype.map over renderNamespace. */
  function RenderNamespaceList(ts: seq<TypeObject>, assoc: map<string, seq<string>>, inputs: map<string, TypeObject>,
                               mm: ModelMap, files: SourceFiles, cap: string -> string): Result<seq<string>>
  {
    MapResult(ts, (t: TypeObject) => RenderNamespace(t, assoc, inputs, mm, files, cap))
  }

  /** renderNamespaces: one namespace per object type, in schema order, joined by line breaks. */
  function RenderNamespaces(args: GenerateArgs, assoc: map<string, seq<string>>, inputs: map<string, TypeObject>,
                            files: SourceFiles, cap: string -> string): Result<string>
  {
    var ns :- RenderNamespaceList(ObjectTypes(args.types), assoc, inputs, args.modelMap, files, cap);
    Ok(Join(NL, ns))
  }

  // ---------------------------------------------------------------------------
  // IResolvers

  function IResolverEntry(t: TypeObject): string
  {
    t.name + ": " + t.name + "Resolvers.Type"
  }

  function IResolverEntries(ts: seq<TypeObject>): seq<string>
  {
    seq(|ts|, i requires 0 <= i < |ts| => IResolverEntry(ts[i]))
  }

  /** renderIResolvers */
  function RenderIResolvers(args: GenerateArgs): string
  {
    "" + NL + "export interface IResolvers {" + NL + ("  " + Join(NL, IResolverEntries(ObjectTypes(args.types)))) + NL + "}" + NL + "  "
  }

  lemma IResolversBodyLines(ts: seq<TypeObject>)
    requires forall i :: 0 <= i < |ts| ==> IsName(ts[i].name)
    ensures CodeLines("  " + Join(NL, IResolverEntries(ts))) == IResolverEntries(ts)
  {
    var xs := IResolverEntries(ts);
    forall i | 0 <= i < |xs|
      ensures OneLine(xs[i])
    {
      assert xs[i][0] == ts[i].name[0];
    }
    CodeLinesIndent("  ", Join(NL, xs));
    CodeLinesJoin(xs);
    FlatCodeOneLines(xs);
  }

  lemma IResolversFixedLines()
    ensures CodeLines("export interface IResolvers {") == ["export interface IResolvers {"]
    ensures CodeLines("}") == ["}"]
  {
    CodeLinesOfLine("export interface IResolvers {");
    CodeLinesOfLine("}");
  }

  /** Object types keep their names when filtered. */
  lemma ObjectTypesNamed(types: seq<TypeObject>)
    requires SchemaNamed(types)
    ensures forall i :: 0 <= i < |ObjectTypes(types)| ==> IsName(ObjectTypes(types)[i].name) && ObjectTypes(types)[i].typeRef.isObject
  {
    var os := ObjectTypes(types);
    forall i | 0 <= i < |os|
      ensures IsName(os[i].name) && os[i].typeRef.isObject
    {
      assert os[i] in os;
      var k :| 0 <= k < |types| && types[k] == os[i];
    }
  }

  /** IResolvers holds one `N: NResolvers.Type` line per object type N, in schema order. */
  lemma IResolversLines(args: GenerateArgs)
    requires SchemaNamed(args.types)
    ensures CodeLines(RenderIResolvers(args)) ==
              ["export interface IResolvers {"] + IResolverEntries(ObjectTypes(args.types)) + ["}"]
  {
    var os := ObjectTypes(args.types);
    ObjectTypesNamed(args.types);
    IResolversBodyLines(os);
    IResolversFixedLines();
    BlankLines();
    BlockTemplate5("", "export interface IResolvers {", "  " + Join(NL, IResolverEntries(os)), "}", "  ",
                   "export interface IResolvers {", IResolverEntries(os), "}");
  }

  /** Only object types are rendered, in their schema order: the object types of a + b are
      those of a followed by those of b, and a type is among them exactly when it is an object type. */
  lemma ObjectTypesInOrder(a: seq<TypeObject>, b: seq<TypeObject>)
    ensures ObjectTypes(a + b) == ObjectTypes(a) + ObjectTypes(b)
    ensures forall t :: t in ObjectTypes(a) <==> t in a && t.typeRef.isObject
  {
    FilterAppend(a, b, IsObjectType);
  }

  // ---------------------------------------------------------------------------
  // generate

  /** generate: the header, the namespaces and IResolvers, or the error that aborted rendering. */
  function Generate(args: GenerateArgs, files: SourceFiles, cap: string -> string): Result<string>
  {
    var inputs := InputTypesMap(args.types);
    var assoc := TypeToInputTypeAssociation(args.types);
    var namespaces :- RenderNamespaces(args, assoc, inputs, files, cap);
    Ok(("  " + RenderHeader(args)) + NL + "" + NL + ("  " + namespaces) + NL + "" + NL + ("  " + RenderIResolvers(args)) + NL + "" + NL + "  ")
  }

  /** The namespace each object type of the schema gets in a run. */
  function SchemaNamespace(args: GenerateArgs, files: SourceFiles, cap: string -> string, t: TypeObject): Result<string>
  {
    RenderNamespace(t, TypeToInputTypeAssociation(args.types), InputTypesMap(args.types), args.modelMap, files, cap)
  }

  /** A run succeeds exactly when every object type's namespace renders; otherwise it fails with
      the error of the first object type whose namespace aborts. */
  lemma GenerateSucceedsIff(args: GenerateArgs, files: SourceFiles, cap: string -> string)
    ensures var os := ObjectTypes(args.types);
            Generate(args, files, cap).Ok? <==> forall i :: 0 <= i < |os| ==> SchemaNamespace(args, files, cap, os[i]).Ok?
    ensures var os := ObjectTypes(args.types);
            Generate(args, files, cap).Err? ==>
              exists i :: 0 <= i < |os| && SchemaNamespace(args, files, cap, os[i]) == Err(Generate(args, files, cap).error) &&
                forall j :: 0 <= j < i ==> SchemaNamespace(args, files, cap, os[j]).Ok?
  {
  }

  function NamespaceCode(args: GenerateArgs, files: SourceFiles, cap: string -> string, t: TypeObject): seq<string>
  {
    var r := SchemaNamespace(args, files, cap, t);
    if r.Ok? then CodeLines(r.value) else []
  }

  /** The code lines of each object type's namespace, in schema order. */
  function NamespacesCode(args: GenerateArgs, files: SourceFiles, cap: string -> string): seq<seq<string>>
  {
    var os := ObjectTypes(args.types);
    seq(|os|, i requires 0 <= i < |os| => NamespaceCode(args, files, cap, os[i]))
  }

  lemma NamespacesLines(args: GenerateArgs, files: SourceFiles, cap: string -> string)
    requires Generate(args, files, cap).Ok?
    ensures var r := RenderNamespaces(args, TypeToInputTypeAssociation(args.types), InputTypesMap(args.types), files, cap);
            r.Ok? && CodeLines(r.value) == Concat(NamespacesCode(args, files, cap))
  {
    var os := ObjectTypes(args.types);
    var list := RenderNamespaceList(os, TypeToInputTypeAssociation(args.types), InputTypesMap(args.types), args.modelMap, files, cap);
    CodeLinesJoinEach(list.value, NamespacesCode(args, files, cap));
  }

  /** The output lines: the header's, then each object type's namespace in schema order, then
      those of IResolvers. */
  lemma GenerateLines(args: GenerateArgs, files: SourceFiles, cap: string -> string)
    requires Generate(args, files, cap).Ok?
    requires SchemaNamed(args.types) && ModelsNamed(args.modelMap) && '\n' !in args.contextPath
    ensures CodeLines(Generate(args, files, cap).value) ==
              ([DoNotEdit, InfoImport, ContextImport(args.contextPath)] + ModelImports(args.modelMap)) +
              Concat(NamespacesCode(args, files, cap)) +
              (["export interface IResolvers {"] + IResolverEntries(ObjectTypes(args.types)) + ["}"])
  {
    var namespaces := RenderNamespaces(args, TypeToInputTypeAssociation(args.types), InputTypesMap(args.types), files, cap).value;
    NamespacesLines(args, files, cap);
    HeaderLines(args);
    IResolversLines(args);
    CodeLinesIndent("  ", RenderHeader(args));
    CodeLinesIndent("  ", namespaces);
    CodeLinesIndent("  ", RenderIResolvers(args));
    BlankLines();
    ThreeParts("  " + RenderHeader(args), "", "  " + namespaces, "", "  " + RenderIResolvers(args), "", "  ",
               CodeLines(RenderHeader(args)), Concat(NamespacesCode(args, files, cap)), CodeLines(RenderIResolvers(args)));
  }

  /** Every IResolvers entry `N: NResolvers.Type` names a namespace of the output: the object type
      at the same position gets the namespace `NResolvers`, which declares the `Type` interface. */
  lemma IResolversReferToNamespaces(args: GenerateArgs, files: SourceFiles, cap: string -> string, i: nat)
    requires Generate(args, files, cap).Ok?
    requires SchemaNamed(args.types) && ModelsNamed(args.modelMap)
    requires i < |ObjectTypes(args.types)|
    requires FieldsCapNamed(cap, ObjectTypes(args.types)[i])
    ensures var t := ObjectTypes(args.types)[i];
            var c := CodeLines(SchemaNamespace(args, files, cap, t).value);
            IResolverEntries(ObjectTypes(args.types))[i] == t.name + ": " + t.name + "Resolvers.Type" &&
            |c| > 0 && c[0] == "export namespace " + t.name + "Resolvers {" &&
            "export interface Type {" in c
  {
    var os := ObjectTypes(args.types);
    var t := os[i];
    assert t in os;
    var k :| 0 <= k < |args.types| && args.types[k] == t;
    assert TypeNamed(t);
    NamespaceLines(t, TypeToInputTypeAssociation(args.types), InputTypesMap(args.types), args.modelMap, files, cap);
    var c := CodeLines(SchemaNamespace(args, files, cap, t).value);
    var pre := [NamespaceHead(t)] +
               CodeLines(DefaultResolvers(t, args.modelMap, files).value) +
               CodeLines(RenderInputTypeInterface(t, TypeToInputTypeAssociation(args.types), InputTypesMap(args.types)).value) +
               Concat(ArgInterfaceCodeEach(t, args.modelMap, cap)) +
               Concat(FunctionInterfaceCodeEach(t, args.modelMap, cap));
    var typeBlock := ["export interface Type {"] + Concat(TypeMemberCodeEach(t, args.modelMap, cap)) + ["}"];
    assert c == pre + typeBlock + ["}"];
    assert c[|pre|] == "export interface Type {";
  }

  // ---------------------------------------------------------------------------
  // How a run aborts

  /** A run aborts when an object type with a model has no interface of the model's name in its
      model file, or when that file cannot be read. */
  lemma MissingInterfaceAbortsRun(args: GenerateArgs, files: SourceFiles, cap: string -> string, i: nat, e: nat)
    requires i < |args.types| && args.types[i].typeRef.isObject
    requires DistinctKeys(args.modelMap) && e < |args.modelMap| && args.modelMap[e].typeName == args.types[i].name
    requires var m := args.modelMap[e].model;
             m.absoluteFilePath in files ==>
               forall j :: 0 <= j < |files[m.absoluteFilePath]| ==> !IsInterfaceNamed(files[m.absoluteFilePath][j], m.modelTypeName)
    ensures Generate(args, files, cap).Err?
  {
    var t := args.types[i];
    MissingInterfaceAborts(t, args.modelMap, files, e);
    var os := ObjectTypes(args.types);
    assert t in os;
    var k :| 0 <= k < |os| && os[k] == t;
    assert !SchemaNamespace(args, files, cap, os[k]).Ok?;
  }

  /** A run aborts when an object type's fields take arguments of two or more input types: the
      association list, used as a key, finds no input type. */
  lemma SeveralAssociationsAbortRun(args: GenerateArgs, files: SourceFiles, cap: string -> string, i: nat)
    requires SchemaNamed(args.types)
    requires i < |args.types| && args.types[i].typeRef.isObject
    requires |InputArgNames(args.types[i].fields)| >= 2
    requires forall j :: 0 <= j < |args.types| && args.types[j].name == args.types[i].name ==> j == i
    ensures Generate(args, files, cap).Err?
  {
    var t := args.types[i];
    var assoc := TypeToInputTypeAssociation(args.types);
    AssociationSpec(args.types, t.name);
    HasAssociationIffNames(t);
    assert t.name in assoc;
    var l := LastMatch(args.types, HasAssociation, t.name);
    IndexFiltered(args.types, HasAssociation, (t: TypeObject) => InputArgNames(t.fields), map[], t.name);
    assert l == Some(i);
    assert assoc[t.name] == InputArgNames(t.fields);
    SeveralAssociationsFail(args.types, t);
    var os := ObjectTypes(args.types);
    assert t in os;
    var k :| 0 <= k < |os| && os[k] == t;
    assert !SchemaNamespace(args, files, cap, os[k]).Ok?;
  }
}
