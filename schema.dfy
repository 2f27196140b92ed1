/** The records the generator reads: GraphQL types with their fields and arguments,
    the model map from GraphQL type names to TypeScript model types, and the
    arguments of one generation run. Also the Option/Result wrappers and the errors
    a run can end in. */
module Schema {
  import opened Text

  datatype Option<T> = None | Some(value: T)

  datatype Result<T> = Ok(value: T) | Err(error: GenError) {
    predicate IsFailure() { Err? }
    function PropagateFailure<U>(): Result<U>
      requires Err?
    {
      Err(error)
    }
    function Extract(): T
      requires Ok?
    {
      value
    }
  }

  /** Array.prototype.map with a callback that may throw: every result in order, or the error of
      the first element whose callback throws. */
  function MapResult<T, U>(xs: seq<T>, f: T -> Result<U>): (r: Result<seq<U>>)
    ensures r.Ok? <==> forall i :: 0 <= i < |xs| ==> f(xs[i]).Ok?
    ensures r.Ok? ==>
              |r.value| == |xs| && forall i :: 0 <= i < |xs| ==> r.value[i] == f(xs[i]).value
    ensures r.Err? ==>
              exists i :: 0 <= i < |xs| && f(xs[i]) == Err(r.error) && forall j :: 0 <= j < i ==> f(xs[j]).Ok?
  {
    if xs == [] then Ok([])
    else
      var first :- f(xs[0]);
      var rest := MapResult(xs[1..], f);
      assert forall i :: 0 <= i < |xs[1..]| ==> xs[1..][i] == xs[i + 1];
      if rest.Err? then
        var i :| 0 <= i < |xs[1..]| && f(xs[1..][i]) == Err(rest.error) && forall j :: 0 <= j < i ==> f(xs[1..][j]).Ok?;
        assert f(xs[i + 1]) == Err(rest.error);
        Err(rest.error)
      else
        Ok([first] + rest.value)
  }

  /** The ways a run aborts. */
  datatype GenError =
    | UnreadableFile(path: string)       // fs.readFileSync throws on the model's file
    | NoInterface(message: string)       // the Error thrown when the model's interface is missing
    | UndefinedInputType(key: string)    // `.name` read from an input type the index does not hold

  /** The type reference of a type, field or argument: the referenced type's name and flags. */
  datatype TypeRef = TypeRef(
    name: string,
    isScalar: bool,
    isObject: bool,
    isInput: bool,
    isArray: bool,
    isRequired: bool)

  datatype Argument = Argument(name: string, typeRef: TypeRef)

  datatype Field = Field(name: string, typeRef: TypeRef, arguments: seq<Argument>)

  /** A GraphQL type of the schema; `typeRef` carries its own kind flags. */
  datatype TypeObject = TypeObject(name: string, typeRef: TypeRef, fields: seq<Field>)

  datatype Model = Model(modelTypeName: string, absoluteFilePath: string, importPathRelativeToOutput: string)

  datatype ModelEntry = ModelEntry(typeName: string, model: Model)

  /** The model map as an object: its entries in key order (Object.keys order). */
  type ModelMap = seq<ModelEntry>

  datatype GenerateArgs = GenerateArgs(types: seq<TypeObject>, modelMap: ModelMap, contextPath: string)

  /** modelMap[typeName]: the model of the entry with that key, undefined (None) without one. */
  function Lookup(mm: ModelMap, typeName: string): (r: Option<Model>)
    ensures r.None? <==> forall i :: 0 <= i < |mm| ==> mm[i].typeName != typeName
    ensures r.Some? ==> exists i :: 0 <= i < |mm| && mm[i] == ModelEntry(typeName, r.value)
  {
    if mm == [] then None
    else if mm[0].typeName == typeName then Some(mm[0].model)
    else Lookup(mm[1..], typeName)
  }

  /** The keys of an object are distinct. */
  predicate DistinctKeys(mm: ModelMap)
  {
    forall i, j :: 0 <= i < j < |mm| ==> mm[i].typeName != mm[j].typeName
  }

  /** With distinct keys every entry is the one its key finds. */
  lemma {:induction false} LookupEntry(mm: ModelMap, i: nat)
    requires DistinctKeys(mm) && i < |mm|
    ensures Lookup(mm, mm[i].typeName) == Some(mm[i].model)
    decreases i
  {
    if i > 0 {
      assert mm[1..][i - 1] == mm[i];
      LookupEntry(mm[1..], i - 1);
    }
  }

  predicate IsObjectType(t: TypeObject) { t.typeRef.isObject }

  predicate IsInputType(t: TypeObject) { t.typeRef.isInput }

  /** Array.prototype.filter. */
  function Filter<T(!new)>(s: seq<T>, p: T -> bool): (r: seq<T>)
    ensures |r| <= |s|
    ensures forall x :: x in r <==> x in s && p(x)
  {
    if s == [] then []
    else (if p(s[0]) then [s[0]] else []) + Filter(s[1..], p)
  }

  lemma {:induction false} FilterAppend<T(!new)>(a: seq<T>, b: seq<T>, p: T -> bool)
    ensures Filter(a + b, p) == Filter(a, p) + Filter(b, p)
    decreases |a|
  {
    if a == [] {
      assert a + b == b;
    } else {
      assert (a + b)[0] == a[0];
      assert (a + b)[1..] == a[1..] + b;
      FilterAppend(a[1..], b, p);
    }
  }

  function ObjectTypes(types: seq<TypeObject>): seq<TypeObject>
  {
    Filter(types, IsObjectType)
  }

  // ---------------------------------------------------------------------------
  // Well-formed names: what the schema parser and the configuration deliver.

  predicate ArgumentNamed(a: Argument)
  {
    IsName(a.name) && IsName(a.typeRef.name)
  }

  predicate FieldNamed(f: Field)
  {
    IsName(f.name) && IsName(f.typeRef.name) &&
    forall k :: 0 <= k < |f.arguments| ==> ArgumentNamed(f.arguments[k])
  }

  predicate TypeNamed(t: TypeObject)
  {
    IsName(t.name) && forall j :: 0 <= j < |t.fields| ==> FieldNamed(t.fields[j])
  }

  predicate SchemaNamed(types: seq<TypeObject>)
  {
    forall i :: 0 <= i < |types| ==> TypeNamed(types[i])
  }

  /** Model type names are identifiers; paths are single lines. */
  predicate ModelsNamed(mm: ModelMap)
  {
    forall i :: 0 <= i < |mm| ==>
      IsName(mm[i].model.modelTypeName) && '\n' !in mm[i].model.importPathRelativeToOutput
  }
}
