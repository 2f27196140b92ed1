/** The per-type renderers of a namespace: the argument interfaces of the fields, the resolver
    function types, the `Type` interface and the interface of an associated input type. */
module Render {
  import opened Text
  import opened Schema
  import opened TypeMapper
  import opened Associations

  /** capitalize, given as a parameter: names become names. */
  predicate CapNamed(cap: string -> string, f: Field)
  {
    IsName(cap(f.name))
  }

  predicate FieldsCapNamed(cap: string -> string, t: TypeObject)
  {
    forall j :: 0 <= j < |t.fields| ==> CapNamed(cap, t.fields[j])
  }

  /** The name of a field's argument interface: `Args` and the capitalized field name. */
  function ArgsTypeName(f: Field, cap: string -> string): string
  {
    "Args" + cap(f.name)
  }

  /** The args type both resolver signatures of a field give. */
  function ArgsRef(f: Field, cap: string -> string): (r: string)
    ensures r == "{}" <==> |f.arguments| == 0
    ensures r != "{}" ==> r == ArgsTypeName(f, cap)
  {
    if |f.arguments| > 0 then ArgsTypeName(f, cap) else "{}"
  }

  // ---------------------------------------------------------------------------
  // Argument interfaces

  function ArgLine(a: Argument, mm: ModelMap): string
  {
    a.name + ": " + PrintFieldLikeType(a.typeRef, mm)
  }

  function ArgLines(args: seq<Argument>, mm: ModelMap): seq<string>
  {
    seq(|args|, k requires 0 <= k < |args| => ArgLine(args[k], mm))
  }

  function ArgsDeclaration(f: Field, cap: string -> string): string
  {
    "export interface " + ArgsTypeName(f, cap) + " {"
  }

  /** renderInputArgInterface: nothing for a field without arguments. */
  function RenderInputArgInterface(f: Field, mm: ModelMap, cap: string -> string): (r: string)
    ensures r == "" <==> |f.arguments| == 0
  {
    if |f.arguments| == 0 then ""
    else
      var r := "" + NL + ("  " + ArgsDeclaration(f, cap)) + NL + ("    " + Join(NL, ArgLines(f.arguments, mm))) + NL + "  }" + NL + "  ";
      assert r[0] == '\n';
      r
  }

  function RenderInputArgInterfaceEach(t: TypeObject, mm: ModelMap, cap: string -> string): seq<string>
  {
    seq(|t.fields|, j requires 0 <= j < |t.fields| => RenderInputArgInterface(t.fields[j], mm, cap))
  }

  /** renderInputArgInterfaces */
  function RenderInputArgInterfaces(t: TypeObject, mm: ModelMap, cap: string -> string): string
  {
    Join(NL, RenderInputArgInterfaceEach(t, mm, cap))
  }

  /** The code lines a field contributes to the argument interfaces. */
  function ArgInterfaceCode(f: Field, mm: ModelMap, cap: string -> string): seq<string>
  {
    if |f.arguments| == 0 then [] else [ArgsDeclaration(f, cap)] + ArgLines(f.arguments, mm) + ["}"]
  }

  function ArgInterfaceCodeEach(t: TypeObject, mm: ModelMap, cap: string -> string): seq<seq<string>>
  {
    seq(|t.fields|, j requires 0 <= j < |t.fields| => ArgInterfaceCode(t.fields[j], mm, cap))
  }

  lemma ArgLineOneLine(a: Argument, mm: ModelMap)
    requires ArgumentNamed(a) && ModelsNamed(mm)
    ensures OneLine(ArgLine(a, mm))
  {
    PrintedTypeOneLine(a.typeRef, mm);
    var p := PrintFieldLikeType(a.typeRef, mm);
    var l := ArgLine(a, mm);
    assert l[0] == a.name[0];
    assert l[|l| - 1] == p[|p| - 1];
  }

  lemma ArgBodyLines(f: Field, mm: ModelMap)
    requires FieldNamed(f) && ModelsNamed(mm)
    ensures CodeLines("    " + Join(NL, ArgLines(f.arguments, mm))) == ArgLines(f.arguments, mm)
  {
    var ls := ArgLines(f.arguments, mm);
    forall k | 0 <= k < |ls|
      ensures OneLine(ls[k])
    {
      ArgLineOneLine(f.arguments[k], mm);
    }
    CodeLinesIndent("    ", Join(NL, ls));
    CodeLinesJoin(ls);
    FlatCodeOneLines(ls);
  }

  lemma BlankLines()
    ensures CodeLines("") == [] && CodeLines("  ") == []
  {
    CodeLinesOfBlank("");
    CodeLinesOfBlank("  ");
  }

  /** A field with arguments declares `export interface Args<Cap> {`, then one `name: type` line
      per argument in order, then the closing brace; a field without arguments declares nothing. */
  lemma ArgInterfaceLines(f: Field, mm: ModelMap, cap: string -> string)
    requires FieldNamed(f) && ModelsNamed(mm) && CapNamed(cap, f)
    ensures CodeLines(RenderInputArgInterface(f, mm, cap)) == ArgInterfaceCode(f, mm, cap)
  {
    if |f.arguments| == 0 {
      CodeLinesEmpty();
    } else {
      ArgInterfaceBlockLines(f, mm, cap);
    }
  }

  lemma ArgInterfaceBlockLines(f: Field, mm: ModelMap, cap: string -> string)
    requires FieldNamed(f) && ModelsNamed(mm) && CapNamed(cap, f)
    ensures CodeLines("" + NL + ("  " + ArgsDeclaration(f, cap)) + NL + ("    " + Join(NL, ArgLines(f.arguments, mm))) + NL + "  }" + NL + "  ") ==
            [ArgsDeclaration(f, cap)] + ArgLines(f.arguments, mm) + ["}"]
  {
    ArgsDeclarationAt("  ", f, cap);
    ArgBodyLines(f, mm);
    CloseBraceLine();
    BlankLines();
    BlockTemplate5("", "  " + ArgsDeclaration(f, cap), "    " + Join(NL, ArgLines(f.arguments, mm)), "  }", "  ",
                   ArgsDeclaration(f, cap), ArgLines(f.arguments, mm), "}");
  }

  /** The argument interfaces of a type are those of its fields, in field order. */
  lemma ArgInterfacesLines(t: TypeObject, mm: ModelMap, cap: string -> string)
    requires TypeNamed(t) && ModelsNamed(mm) && FieldsCapNamed(cap, t)
    ensures CodeLines(RenderInputArgInterfaces(t, mm, cap)) == Concat(ArgInterfaceCodeEach(t, mm, cap))
  {
    var xs := RenderInputArgInterfaceEach(t, mm, cap);
    var yss := ArgInterfaceCodeEach(t, mm, cap);
    forall j | 0 <= j < |xs|
      ensures CodeLines(xs[j]) == yss[j]
    {
      ArgInterfaceLines(t.fields[j], mm, cap);
    }
    CodeLinesJoinEach(xs, yss);
  }

  // ---------------------------------------------------------------------------
  // Resolver signatures

  /** The return type of a field's resolver: `T | Promise<T>`. */
  function ResultType(f: Field, mm: ModelMap): string
  {
    PrintFieldLikeType(f.typeRef, mm) + " | Promise<" + PrintFieldLikeType(f.typeRef, mm) + ">"
  }

  function ParentLine(t: TypeObject, mm: ModelMap): string
  {
    "parent: " + GetModelName(t.name, mm) + ","
  }

  function ArgsLine(f: Field, cap: string -> string): string
  {
    "args: " + ArgsRef(f, cap) + ","
  }

  const CtxLine: string := "ctx: Context,"

  const InfoLine: string := "info: GraphQLResolveInfo,"

  function ReturnLine(f: Field, mm: ModelMap): string
  {
    ") => " + ResultType(f, mm)
  }

  /** The lines of a resolver signature after its head: parent, args, ctx, info and the result. */
  function SignatureCode(f: Field, t: TypeObject, mm: ModelMap, cap: string -> string): seq<string>
  {
    [ParentLine(t, mm), ArgsLine(f, cap), CtxLine, InfoLine, ReturnLine(f, mm)]
  }

  function ResolverTypeHead(f: Field, cap: string -> string): string
  {
    "export type " + cap(f.name) + "Resolver = ("
  }

  function TypeMemberHead(f: Field): string
  {
    f.name + ": ("
  }

  /** renderResolverFunctionInterface */
  function RenderResolverFunctionInterface(f: Field, t: TypeObject, mm: ModelMap, cap: string -> string): string
  {
    "" + NL +
    ("  " + ResolverTypeHead(f, cap)) + NL +
    ("    " + ParentLine(t, mm)) + NL +
    ("    " + ArgsLine(f, cap)) + NL +
    ("    " + CtxLine) + NL +
    ("    " + InfoLine) + NL +
    ("  " + ReturnLine(f, mm)) + NL +
    "  "
  }

  function RenderResolverFunctionInterfaceEach(t: TypeObject, mm: ModelMap, cap: string -> string): seq<string>
  {
    seq(|t.fields|, j requires 0 <= j < |t.fields| => RenderResolverFunctionInterface(t.fields[j], t, mm, cap))
  }

  /** renderResolverFunctionInterfaces */
  function RenderResolverFunctionInterfaces(t: TypeObject, mm: ModelMap, cap: string -> string): string
  {
    Join(NL, RenderResolverFunctionInterfaceEach(t, mm, cap))
  }

  /** renderResolverTypeInterface */
  function RenderResolverTypeInterface(f: Field, t: TypeObject, mm: ModelMap, cap: string -> string): string
  {
    "" + NL +
    ("    " + TypeMemberHead(f)) + NL +
    ("      " + ParentLine(t, mm)) + NL +
    ("      " + ArgsLine(f, cap)) + NL +
    ("      " + CtxLine) + NL +
    ("      " + InfoLine) + NL +
    ("    " + ReturnLine(f, mm)) + NL +
    "  "
  }

  function RenderResolverTypeInterfaceEach(t: TypeObject, mm: ModelMap, cap: string -> string): seq<string>
  {
    seq(|t.fields|, j requires 0 <= j < |t.fields| => RenderResolverTypeInterface(t.fields[j], t, mm, cap))
  }

  /** renderResolverTypeInterfaces */
  function RenderResolverTypeInterfaces(t: TypeObject, mm: ModelMap, cap: string -> string): string
  {
    "" + NL + ("  " + "export interface Type {") + NL + ("    " + Join(NL, RenderResolverTypeInterfaceEach(t, mm, cap))) + NL + "  }" + NL + "  "
  }

  function FunctionInterfaceCode(f: Field, t: TypeObject, mm: ModelMap, cap: string -> string): seq<string>
  {
    [ResolverTypeHead(f, cap)] + SignatureCode(f, t, mm, cap)
  }

  function TypeMemberCode(f: Field, t: TypeObject, mm: ModelMap, cap: string -> string): seq<string>
  {
    [TypeMemberHead(f)] + SignatureCode(f, t, mm, cap)
  }

  function FunctionInterfaceCodeEach(t: TypeObject, mm: ModelMap, cap: string -> string): seq<seq<string>>
  {
    seq(|t.fields|, j requires 0 <= j < |t.fields| => FunctionInterfaceCode(t.fields[j], t, mm, cap))
  }

  function TypeMemberCodeEach(t: TypeObject, mm: ModelMap, cap: string -> string): seq<seq<string>>
  {
    seq(|t.fields|, j requires 0 <= j < |t.fields| => TypeMemberCode(t.fields[j], t, mm, cap))
  }

  lemma ModelNameOneLine(typeName: string, mm: ModelMap)
    requires ModelsNamed(mm)
    ensures OneLine(GetModelName(typeName, mm))
  {
    var r := GetModelName(typeName, mm);
    if r != "{}" {
      ModelNameEmptyIffUnmapped(typeName, mm);
      var i :| 0 <= i < |mm| && mm[i].typeName == typeName && r == mm[i].model.modelTypeName;
      NameIsOneLine(r);
    }
  }

  lemma ReturnLineOneLine(f: Field, mm: ModelMap)
    requires FieldNamed(f) && ModelsNamed(mm)
    ensures OneLine(ReturnLine(f, mm))
  {
    PrintedTypeOneLine(f.typeRef, mm);
  }

  lemma ParentAt(p: string, t: TypeObject, mm: ModelMap)
    requires Blank(p) && ModelsNamed(mm)
    ensures CodeLines(p + ParentLine(t, mm)) == [ParentLine(t, mm)]
  {
    ModelNameOneLine(t.name, mm);
    TemplateLine(p + ParentLine(t, mm), p, ParentLine(t, mm));
  }

  lemma ArgsAt(p: string, f: Field, cap: string -> string)
    requires Blank(p) && CapNamed(cap, f)
    ensures CodeLines(p + ArgsLine(f, cap)) == [ArgsLine(f, cap)]
  {
    TemplateLine(p + ArgsLine(f, cap), p, ArgsLine(f, cap));
  }

  lemma CtxAt(p: string)
    requires Blank(p)
    ensures CodeLines(p + CtxLine) == [CtxLine]
  {
    TemplateLine(p + CtxLine, p, CtxLine);
  }

  lemma InfoAt(p: string)
    requires Blank(p)
    ensures CodeLines(p + InfoLine) == [InfoLine]
  {
    TemplateLine(p + InfoLine, p, InfoLine);
  }

  lemma ReturnAt(p: string, f: Field, mm: ModelMap)
    requires Blank(p) && FieldNamed(f) && ModelsNamed(mm)
    ensures CodeLines(p + ReturnLine(f, mm)) == [ReturnLine(f, mm)]
  {
    ReturnLineOneLine(f, mm);
    TemplateLine(p + ReturnLine(f, mm), p, ReturnLine(f, mm));
  }

  lemma ResolverHeadAt(p: string, f: Field, cap: string -> string)
    requires Blank(p) && CapNamed(cap, f)
    ensures CodeLines(p + ResolverTypeHead(f, cap)) == [ResolverTypeHead(f, cap)]
  {
    TemplateLine(p + ResolverTypeHead(f, cap), p, ResolverTypeHead(f, cap));
  }

  lemma MemberHeadAt(p: string, f: Field)
    requires Blank(p) && FieldNamed(f)
    ensures CodeLines(p + TypeMemberHead(f)) == [TypeMemberHead(f)]
  {
    var h := TypeMemberHead(f);
    assert h[0] == f.name[0];
    TemplateLine(p + h, p, h);
  }

  lemma ArgsDeclarationAt(p: string, f: Field, cap: string -> string)
    requires Blank(p) && CapNamed(cap, f)
    ensures CodeLines(p + ArgsDeclaration(f, cap)) == [ArgsDeclaration(f, cap)]
  {
    TemplateLine(p + ArgsDeclaration(f, cap), p, ArgsDeclaration(f, cap));
  }

  /** A resolver function type reads `export type <Cap>Resolver = (` followed by the signature. */
  lemma FunctionInterfaceLines(f: Field, t: TypeObject, mm: ModelMap, cap: string -> string)
    requires FieldNamed(f) && ModelsNamed(mm) && CapNamed(cap, f)
    ensures CodeLines(RenderResolverFunctionInterface(f, t, mm, cap)) == FunctionInterfaceCode(f, t, mm, cap)
  {
    BlankLines();
    ResolverHeadAt("  ", f, cap);
    ParentAt("    ", t, mm);
    ArgsAt("    ", f, cap);
    CtxAt("    ");
    InfoAt("    ");
    ReturnAt("  ", f, mm);
    SixLineTemplate("", "  " + ResolverTypeHead(f, cap), "    " + ParentLine(t, mm), "    " + ArgsLine(f, cap),
                    "    " + CtxLine, "    " + InfoLine, "  " + ReturnLine(f, mm), "  ", FunctionInterfaceCode(f, t, mm, cap));
  }

  /** A member of the `Type` interface reads `<field>: (` followed by the same signature. */
  lemma TypeMemberLines(f: Field, t: TypeObject, mm: ModelMap, cap: string -> string)
    requires FieldNamed(f) && ModelsNamed(mm) && CapNamed(cap, f)
    ensures CodeLines(RenderResolverTypeInterface(f, t, mm, cap)) == TypeMemberCode(f, t, mm, cap)
  {
    BlankLines();
    MemberHeadAt("    ", f);
    ParentAt("      ", t, mm);
    ArgsAt("      ", f, cap);
    CtxAt("      ");
    InfoAt("      ");
    ReturnAt("    ", f, mm);
    SixLineTemplate("", "    " + TypeMemberHead(f), "      " + ParentLine(t, mm), "      " + ArgsLine(f, cap),
                    "      " + CtxLine, "      " + InfoLine, "    " + ReturnLine(f, mm), "  ", TypeMemberCode(f, t, mm, cap));
  }

  /** The resolver function types of a type, one per field in field order. */
  lemma FunctionInterfacesLines(t: TypeObject, mm: ModelMap, cap: string -> string)
    requires TypeNamed(t) && ModelsNamed(mm) && FieldsCapNamed(cap, t)
    ensures CodeLines(RenderResolverFunctionInterfaces(t, mm, cap)) == Concat(FunctionInterfaceCodeEach(t, mm, cap))
  {
    var xs := RenderResolverFunctionInterfaceEach(t, mm, cap);
    var yss := FunctionInterfaceCodeEach(t, mm, cap);
    forall j | 0 <= j < |xs|
      ensures CodeLines(xs[j]) == yss[j]
    {
      FunctionInterfaceLines(t.fields[j], t, mm, cap);
    }
    CodeLinesJoinEach(xs, yss);
  }

  lemma TypeHeadLine()
    ensures CodeLines("  " + "export interface Type {") == ["export interface Type {"]
  {
    TemplateLine("  " + "export interface Type {", "  ", "export interface Type {");
  }

  lemma TypeBodyLines(t: TypeObject, mm: ModelMap, cap: string -> string)
    requires TypeNamed(t) && ModelsNamed(mm) && FieldsCapNamed(cap, t)
    ensures CodeLines("    " + Join(NL, RenderResolverTypeInterfaceEach(t, mm, cap))) == Concat(TypeMemberCodeEach(t, mm, cap))
  {
    var xs := RenderResolverTypeInterfaceEach(t, mm, cap);
    var yss := TypeMemberCodeEach(t, mm, cap);
    forall j | 0 <= j < |xs|
      ensures CodeLines(xs[j]) == yss[j]
    {
      TypeMemberLines(t.fields[j], t, mm, cap);
    }
    CodeLinesIndent("    ", Join(NL, xs));
    CodeLinesJoinEach(xs, yss);
  }

  /** The `Type` interface holds one member per field, in field order. */
  lemma TypeInterfaceLines(t: TypeObject, mm: ModelMap, cap: string -> string)
    requires TypeNamed(t) && ModelsNamed(mm) && FieldsCapNamed(cap, t)
    ensures CodeLines(RenderResolverTypeInterfaces(t, mm, cap)) ==
              ["export interface Type {"] + Concat(TypeMemberCodeEach(t, mm, cap)) + ["}"]
  {
    BlankLines();
    TypeHeadLine();
    TypeBodyLines(t, mm, cap);
    CloseBraceLine();
    BlockTemplate5("", "  " + "export interface Type {", "    " + Join(NL, RenderResolverTypeInterfaceEach(t, mm, cap)), "  }", "  ",
                   "export interface Type {", Concat(TypeMemberCodeEach(t, mm, cap)), "}");
  }

  /** The two renderings of a field's resolver agree on everything after their heads: the same
      parent model, the same args type, and the same result type. */
  lemma ResolverRenderingsAgree(f: Field, t: TypeObject, mm: ModelMap, cap: string -> string)
    requires FieldNamed(f) && ModelsNamed(mm) && CapNamed(cap, f)
    ensures var fn := CodeLines(RenderResolverFunctionInterface(f, t, mm, cap));
            var ty := CodeLines(RenderResolverTypeInterface(f, t, mm, cap));
            |fn| == |ty| == 6 && fn[1..] == ty[1..]
  {
    FunctionInterfaceLines(f, t, mm, cap);
    TypeMemberLines(f, t, mm, cap);
  }

  /** The args type both signatures name is the interface the field's argument interfaces
      declare, when the field has arguments; otherwise it is `{}` and nothing is declared. */
  lemma ArgsReferenceDeclared(f: Field, t: TypeObject, mm: ModelMap, cap: string -> string)
    requires FieldNamed(f) && ModelsNamed(mm) && CapNamed(cap, f)
    ensures var fn := CodeLines(RenderResolverFunctionInterface(f, t, mm, cap));
            var ty := CodeLines(RenderResolverTypeInterface(f, t, mm, cap));
            var decl := CodeLines(RenderInputArgInterface(f, mm, cap));
            |fn| == 6 && |ty| == 6 &&
            (|f.arguments| > 0 ==>
               fn[2] == "args: " + ArgsTypeName(f, cap) + "," && ty[2] == fn[2] &&
               |decl| > 0 && decl[0] == "export interface " + ArgsTypeName(f, cap) + " {") &&
            (|f.arguments| == 0 ==> fn[2] == "args: {}," && ty[2] == fn[2] && decl == [])
  {
    FunctionArgsLine(f, t, mm, cap);
    TypeArgsLine(f, t, mm, cap);
    ArgInterfaceLines(f, mm, cap);
  }

  lemma FunctionArgsLine(f: Field, t: TypeObject, mm: ModelMap, cap: string -> string)
    requires FieldNamed(f) && ModelsNamed(mm) && CapNamed(cap, f)
    ensures var fn := CodeLines(RenderResolverFunctionInterface(f, t, mm, cap));
            |fn| == 6 && fn[2] == ArgsLine(f, cap)
  {
    FunctionInterfaceLines(f, t, mm, cap);
  }

  lemma TypeArgsLine(f: Field, t: TypeObject, mm: ModelMap, cap: string -> string)
    requires FieldNamed(f) && ModelsNamed(mm) && CapNamed(cap, f)
    ensures var ty := CodeLines(RenderResolverTypeInterface(f, t, mm, cap));
            |ty| == 6 && ty[2] == ArgsLine(f, cap)
  {
    TypeMemberLines(f, t, mm, cap);
  }

  /** Each resolver returns `T | Promise<T>` for one T, which reads back as the field's type:
      its base type, whether it is a list, and whether it admits null. */
  lemma ResultTypeReadsBack(f: Field, mm: ModelMap)
    requires FieldNamed(f) && ModelsNamed(mm)
    ensures exists ty :: ResultType(f, mm) == ty + " | Promise<" + ty + ">" &&
              ParseFieldLikeType(ty) == TypeExpr(BaseType(f.typeRef, mm), f.typeRef.isArray, !f.typeRef.isRequired)
  {
    ParsePrintedType(f.typeRef, mm);
    var ty := PrintFieldLikeType(f.typeRef, mm);
    assert ResultType(f, mm) == ty + " | Promise<" + ty + ">";
  }

  // ---------------------------------------------------------------------------
  // The interface of an associated input type

  function InputFieldEntry(f: Field): string
  {
    f.name + ": " + GetTypeFromGraphQLType(f.typeRef.name)
  }

  function InputFieldEntries(it: TypeObject): seq<string>
  {
    seq(|it.fields|, j requires 0 <= j < |it.fields| => InputFieldEntry(it.fields[j]))
  }

  /** The field entries are not joined with a line break: the array becomes a comma-join. */
  function InputTypeBlock(it: TypeObject): string
  {
    "export interface " + it.name + " {" + NL + ("      " + Join(",", InputFieldEntries(it))) + NL + "    }"
  }

  /** The conditional block of renderNamespace for an object type: nothing without an
      association; otherwise the input type found under the association list as a key,
      which aborts the run when there is none. */
  function RenderInputTypeInterface(t: TypeObject, assoc: map<string, seq<string>>, inputs: map<string, TypeObject>): (r: Result<string>)
    ensures t.name !in assoc ==> r == Ok("")
    ensures r.Err? <==> t.name in assoc && AssociationKey(assoc[t.name]) !in inputs
    ensures r.Err? ==> r.error == UndefinedInputType(AssociationKey(assoc[t.name]))
  {
    if t.name !in assoc then Ok("")
    else
      var key := AssociationKey(assoc[t.name]);
      if key !in inputs then Err(UndefinedInputType(key))
      else Ok(InputTypeBlock(inputs[key]))
  }

  /** The code lines of the input type block: the head naming the input type, its field entries
      on one line when it has fields, and the closing brace. */
  function InputTypeCode(it: TypeObject): seq<string>
  {
    ["export interface " + it.name + " {"] + (if |it.fields| == 0 then [] else [Join(",", InputFieldEntries(it))]) + ["}"]
  }

  lemma InputEntriesLine(it: TypeObject)
    requires TypeNamed(it)
    ensures CodeLines("      " + Join(",", InputFieldEntries(it))) == (if |it.fields| == 0 then [] else [Join(",", InputFieldEntries(it))])
  {
    var es := InputFieldEntries(it);
    var body := Join(",", es);
    if |it.fields| == 0 {
      assert "      " + body == "      ";
      CodeLinesOfBlank("      ");
    } else {
      forall j | 0 <= j < |es|
        ensures OneLine(es[j])
      {
        var g := GetTypeFromGraphQLType(it.fields[j].typeRef.name);
        assert es[j][0] == it.fields[j].name[0];
        assert es[j][|es[j]| - 1] == g[|g| - 1];
      }
      JoinOneLine(",", es);
      TemplateLine("      " + body, "      ", body);
    }
  }

  lemma InputTypeBlockLines(it: TypeObject)
    requires TypeNamed(it)
    ensures CodeLines(InputTypeBlock(it)) == InputTypeCode(it)
  {
    var head := "export interface " + it.name + " {";
    CodeLinesOfLine(head);
    InputEntriesLine(it);
    TemplateLine("    }", "    ", "}");
    BlockTemplate3(head, "      " + Join(",", InputFieldEntries(it)), "    }",
                   head, if |it.fields| == 0 then [] else [Join(",", InputFieldEntries(it))], "}");
  }

  /** An object type whose association is the single name n of an input type of the schema
      gets the interface of that input type, declared under the name n. */
  lemma SingleAssociationLines(types: seq<TypeObject>, t: TypeObject, n: string)
    requires SchemaNamed(types)
    requires t.name in TypeToInputTypeAssociation(types) && TypeToInputTypeAssociation(types)[t.name] == [n]
    requires exists i :: 0 <= i < |types| && types[i].typeRef.isInput && types[i].name == n
    ensures var r := RenderInputTypeInterface(t, TypeToInputTypeAssociation(types), InputTypesMap(types));
            r.Ok? && n in InputTypesMap(types) &&
            CodeLines(r.value) == InputTypeCode(InputTypesMap(types)[n]) &&
            CodeLines(r.value)[0] == "export interface " + n + " {"
  {
    SingletonKey(n);
    InputTypesMapSpec(types, n);
    var it := InputTypesMap(types)[n];
    var i :| 0 <= i < |types| && types[i] == it;
    InputTypeBlockLines(it);
  }

  /** An object type whose fields take arguments of two or more input types (or one input type
      twice) has an association key with a comma in it, which no input type has: rendering its
      namespace aborts. */
  lemma SeveralAssociationsFail(types: seq<TypeObject>, t: TypeObject)
    requires SchemaNamed(types)
    requires t.name in TypeToInputTypeAssociation(types) && |TypeToInputTypeAssociation(types)[t.name]| >= 2
    ensures RenderInputTypeInterface(t, TypeToInputTypeAssociation(types), InputTypesMap(types)) ==
              Err(UndefinedInputType(AssociationKey(TypeToInputTypeAssociation(types)[t.name])))
  {
    SeveralNamesFindNoInputType(types, TypeToInputTypeAssociation(types)[t.name]);
  }

  /** A type that the association index does not hold gets no input type interface; this is
      the case for every non-object type and every type without input-typed arguments. */
  lemma UnassociatedTypeRendersNothing(types: seq<TypeObject>, t: TypeObject)
    requires forall i :: 0 <= i < |types| && types[i].name == t.name ==>
               !types[i].typeRef.isObject || |InputArgNames(types[i].fields)| == 0
    ensures RenderInputTypeInterface(t, TypeToInputTypeAssociation(types), InputTypesMap(types)) == Ok("")
  {
    AssociationSpec(types, t.name);
  }
}
