/** The default resolvers of a namespace: one `name: parent => parent.name,` entry per
    property of the model's interface declaration. The model file is given already read
    and parsed, as its top-level syntax nodes. */
module ScalarResolvers {
  import opened Text
  import opened Schema

  datatype SyntaxKind = InterfaceDeclaration | PropertySignature | OtherKind

  /** A syntax node: its kind, its name (the declared name of an interface, the property name of
      a property signature) and its child nodes in the order forEachChild visits them. */
  datatype Node = Node(kind: SyntaxKind, name: string, children: seq<Node>)

  /** Each readable model file with the top-level nodes of its parse. A path that is not a key
      is one that cannot be read. */
  type SourceFiles = map<string, seq<Node>>

  const EmptyDefaultResolvers: string := "export const defaultResolvers = {}"

  predicate IsInterfaceNamed(n: Node, name: string)
  {
    n.kind == InterfaceDeclaration && n.name == name
  }

  /** Array.prototype.find over the top-level nodes: the first interface declaration named name. */
  function FindInterface(nodes: seq<Node>, name: string): (r: Option<Node>)
    ensures r.None? <==> forall i :: 0 <= i < |nodes| ==> !IsInterfaceNamed(nodes[i], name)
    ensures r.Some? ==> exists i :: 0 <= i < |nodes| && nodes[i] == r.value && IsInterfaceNamed(nodes[i], name) &&
                          forall j :: 0 <= j < i ==> !IsInterfaceNamed(nodes[j], name)
  {
    if nodes == [] then None
    else if IsInterfaceNamed(nodes[0], name) then Some(nodes[0])
    else
      var r := FindInterface(nodes[1..], name);
      assert forall i :: 0 <= i < |nodes[1..]| ==> nodes[1..][i] == nodes[i + 1];
      r
  }

  /** renderScalarResolver */
  function RenderScalarResolver(n: Node): string
  {
    n.name + ": parent => parent." + n.name + ","
  }

  /** The entries for the property signatures among the children, in order; other children are skipped. */
  function PropertyEntries(children: seq<Node>): (r: seq<string>)
    ensures |r| <= |children|
    ensures forall e :: e in r <==>
              exists i :: 0 <= i < |children| && children[i].kind == PropertySignature && e == RenderScalarResolver(children[i])
  {
    if children == [] then []
    else
      var rest := PropertyEntries(children[1..]);
      assert forall i :: 0 <= i < |children[1..]| ==> children[1..][i] == children[i + 1];
      (if children[0].kind == PropertySignature then [RenderScalarResolver(children[0])] else []) + rest
  }

  /** Entries follow the order of the members. */
  lemma {:induction false} PropertyEntriesAppend(a: seq<Node>, b: seq<Node>)
    ensures PropertyEntries(a + b) == PropertyEntries(a) + PropertyEntries(b)
    decreases |a|
  {
    if a == [] {
      assert a + b == b;
    } else {
      assert (a + b)[0] == a[0];
      assert (a + b)[1..] == a[1..] + b;
      PropertyEntriesAppend(a[1..], b);
    }
  }

  function NoInterfaceMessage(name: string): string
  {
    "No interface found for name " + name
  }

  function DefaultResolversBlock(entries: seq<string>): string
  {
    "export const defaultResolvers = {" + NL + ("    " + Join(NL, entries)) + NL + "  }"
  }

  /** What renderScalarResolvers returns or throws. */
  function DefaultResolvers(t: TypeObject, mm: ModelMap, files: SourceFiles): Result<string>
  {
    match Lookup(mm, t.name)
    case None => Ok(EmptyDefaultResolvers)
    case Some(model) =>
      if model.absoluteFilePath !in files then Err(UnreadableFile(model.absoluteFilePath))
      else
        match FindInterface(files[model.absoluteFilePath], model.modelTypeName)
        case None => Err(NoInterface(NoInterfaceMessage(model.modelTypeName)))
        case Some(node) => Ok(DefaultResolversBlock(PropertyEntries(node.children)))
  }

  /** renderScalarResolvers: collects the file's top-level nodes, finds the model's interface,
      collects its children, and renders an entry for each property signature. */
  method RenderScalarResolvers(t: TypeObject, mm: ModelMap, files: SourceFiles) returns (r: Result<string>)
    ensures r == DefaultResolvers(t, mm, files)
  {
    var model := Lookup(mm, t.name);
    if model.None? {
      return Ok(EmptyDefaultResolvers);
    }
    var m := model.value;
    if m.absoluteFilePath !in files {
      return Err(UnreadableFile(m.absoluteFilePath));
    }
    var sourceFile := files[m.absoluteFilePath];

    // sourceFile.forEachChild(node => nodes.push(node))
    var nodes: seq<Node> := [];
    for i := 0 to |sourceFile|
      invariant nodes == sourceFile[..i]
    {
      nodes := nodes + [sourceFile[i]];
    }
    assert nodes == sourceFile;

    // nodes.find(node => node is an interface declaration named m.modelTypeName)
    var k := 0;
    while k < |nodes| && !IsInterfaceNamed(nodes[k], m.modelTypeName)
      invariant 0 <= k <= |nodes|
      invariant FindInterface(nodes[k..], m.modelTypeName) == FindInterface(nodes, m.modelTypeName)
    {
      assert nodes[k..][1..] == nodes[k + 1..];
      k := k + 1;
    }
    if k == |nodes| {
      assert nodes[k..] == [];
      return Err(NoInterface(NoInterfaceMessage(m.modelTypeName)));
    }
    var node := nodes[k];
    assert nodes[k..][0] == node;

    // node.forEachChild(childNode => childNodes.push(childNode))
    var childNodes: seq<Node> := [];
    for i := 0 to |node.children|
      invariant childNodes == node.children[..i]
    {
      childNodes := childNodes + [node.children[i]];
    }
    assert childNodes == node.children;

    r := Ok(DefaultResolversBlock(PropertyEntries(childNodes)));
  }

  // ---------------------------------------------------------------------------
  // Properties

  /** A type without a model gets the empty resolver map and no file is consulted. */
  lemma UnmappedTypeGetsEmptyMap(t: TypeObject, mm: ModelMap, files: SourceFiles)
    requires forall i :: 0 <= i < |mm| ==> mm[i].typeName != t.name
    ensures DefaultResolvers(t, mm, files) == Ok(EmptyDefaultResolvers)
    ensures CodeLines(EmptyDefaultResolvers) == ["export const defaultResolvers = {}"]
  {
    CodeLinesOfLine(EmptyDefaultResolvers);
  }

  /** A mapped type whose file declares no interface of the model's name aborts the run with an
      error whose message ends with that name; so does an unreadable file, naming the path. */
  lemma MissingInterfaceAborts(t: TypeObject, mm: ModelMap, files: SourceFiles, i: nat)
    requires DistinctKeys(mm) && i < |mm| && mm[i].typeName == t.name
    ensures var m := mm[i].model;
            m.absoluteFilePath !in files ==> DefaultResolvers(t, mm, files) == Err(UnreadableFile(m.absoluteFilePath))
    ensures var m := mm[i].model;
            m.absoluteFilePath in files &&
            (forall j :: 0 <= j < |files[m.absoluteFilePath]| ==> !IsInterfaceNamed(files[m.absoluteFilePath][j], m.modelTypeName)) ==>
              DefaultResolvers(t, mm, files).Err? && DefaultResolvers(t, mm, files).error.NoInterface? &&
              EndsWith(DefaultResolvers(t, mm, files).error.message, m.modelTypeName)
  {
    LookupEntry(mm, i);
    var m := mm[i].model;
    var msg := NoInterfaceMessage(m.modelTypeName);
    assert msg[|msg| - |m.modelTypeName|..] == m.modelTypeName;
  }

  lemma {:induction false} EntriesOneLine(children: seq<Node>)
    requires forall i :: 0 <= i < |children| && children[i].kind == PropertySignature ==> IsName(children[i].name)
    ensures forall e :: e in PropertyEntries(children) ==> OneLine(e)
  {
    forall e | e in PropertyEntries(children)
      ensures OneLine(e)
    {
      var i :| 0 <= i < |children| && children[i].kind == PropertySignature && e == RenderScalarResolver(children[i]);
      NameIsOneLine(children[i].name);
    }
  }

  lemma HeadLine()
    ensures CodeLines("export const defaultResolvers = {") == ["export const defaultResolvers = {"]
  {
    CodeLinesOfLine("export const defaultResolvers = {");
  }

  lemma BodyLines(entries: seq<string>)
    requires forall e :: e in entries ==> OneLine(e)
    ensures CodeLines("    " + Join(NL, entries)) == entries
  {
    CodeLinesIndent("    ", Join(NL, entries));
    CodeLinesJoin(entries);
    FlatCodeOneLines(entries);
  }

  lemma BlockLines(entries: seq<string>)
    requires forall e :: e in entries ==> OneLine(e)
    ensures CodeLines(DefaultResolversBlock(entries)) == ["export const defaultResolvers = {"] + entries + ["}"]
  {
    CodeLinesOf3("export const defaultResolvers = {", "    " + Join(NL, entries), "  }");
    HeadLine();
    CloseBraceLine();
    BodyLines(entries);
  }

  /** With the model's interface found (the first top-level interface of that name), the block
      consists of the opening line, one entry per property signature in member order, and the
      closing brace. */
  lemma DefaultResolversLines(t: TypeObject, mm: ModelMap, files: SourceFiles, i: nat, k: nat)
    requires DistinctKeys(mm) && i < |mm| && mm[i].typeName == t.name
    requires mm[i].model.absoluteFilePath in files
    requires var nodes := files[mm[i].model.absoluteFilePath];
             k < |nodes| && IsInterfaceNamed(nodes[k], mm[i].model.modelTypeName) &&
             (forall j :: 0 <= j < k ==> !IsInterfaceNamed(nodes[j], mm[i].model.modelTypeName)) &&
             (forall c :: 0 <= c < |nodes[k].children| && nodes[k].children[c].kind == PropertySignature ==>
                IsName(nodes[k].children[c].name))
    ensures var node := files[mm[i].model.absoluteFilePath][k];
            DefaultResolvers(t, mm, files).Ok? &&
            CodeLines(DefaultResolvers(t, mm, files).value) ==
              ["export const defaultResolvers = {"] + PropertyEntries(node.children) + ["}"]
  {
    LookupEntry(mm, i);
    var m := mm[i].model;
    var nodes := files[m.absoluteFilePath];
    var node := nodes[k];
    var found := FindInterface(nodes, m.modelTypeName);
    assert found == Some(node) by {
      var j :| 0 <= j < |nodes| && nodes[j] == found.value && IsInterfaceNamed(nodes[j], m.modelTypeName) &&
        forall j' :: 0 <= j' < j ==> !IsInterfaceNamed(nodes[j'], m.modelTypeName);
      assert j == k;
    }
    EntriesOneLine(node.children);
    BlockLines(PropertyEntries(node.children));
  }
}
