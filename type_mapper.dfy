/** How the generator names TypeScript types: the scalar mapping, the model lookup and
    the type expression printed for a field or an argument. */
module TypeMapper {
  import opened Text
  import opened Schema

  /** getTypeFromGraphQLType: a closed mapping onto three TypeScript primitives; every
      name it does not know, custom scalars included, becomes `string`. */
  function GetTypeFromGraphQLType(name: string): (r: string)
    ensures r == "number" || r == "boolean" || r == "string"
    ensures r == "number" <==> name == "Int" || name == "Float"
    ensures r == "boolean" <==> name == "Boolean"
  {
    if name == "Int" || name == "Float" then "number"
    else if name == "Boolean" then "boolean"
    else if name == "String" || name == "ID" || name == "DateTime" then "string"
    else "string"
  }

  /** getModelName: the model type name registered for typeName, or the empty shape `{}`. */
  function GetModelName(typeName: string, mm: ModelMap): (r: string)
    ensures (forall i :: 0 <= i < |mm| ==> mm[i].typeName != typeName) ==> r == "{}"
    ensures (exists i :: 0 <= i < |mm| && mm[i].typeName == typeName) ==>
              exists i :: 0 <= i < |mm| && mm[i].typeName == typeName && r == mm[i].model.modelTypeName
  {
    var model := Lookup(mm, typeName);
    if model.None? then "{}" else model.value.modelTypeName
  }

  /** When model type names are identifiers, `{}` is returned exactly for a type without a model. */
  lemma ModelNameEmptyIffUnmapped(typeName: string, mm: ModelMap)
    requires ModelsNamed(mm)
    ensures GetModelName(typeName, mm) == "{}" <==> forall i :: 0 <= i < |mm| ==> mm[i].typeName != typeName
  {
    var r := GetModelName(typeName, mm);
    if exists i :: 0 <= i < |mm| && mm[i].typeName == typeName {
      var i :| 0 <= i < |mm| && mm[i].typeName == typeName && r == mm[i].model.modelTypeName;
      assert IsNameChar(r[0]);
      assert r != "{}";
    }
  }

  /** The base type printFieldLikeType picks, by its branch order: scalar, then input, then model. */
  function BaseType(t: TypeRef, mm: ModelMap): string
  {
    if t.isScalar then GetTypeFromGraphQLType(t.name)
    else if t.isInput then t.name
    else GetModelName(t.name, mm)
  }

  function ArraySuffix(isArray: bool): string
  {
    if isArray then "[]" else ""
  }

  function NullSuffix(isRequired: bool): string
  {
    if isRequired then "" else "| null"
  }

  /** printFieldLikeType: in every branch the base type, then `[]` for a list, then `| null`
      for a value that is not required. */
  function PrintFieldLikeType(t: TypeRef, mm: ModelMap): (r: string)
    ensures r == BaseType(t, mm) + ArraySuffix(t.isArray) + NullSuffix(t.isRequired)
  {
    if t.isScalar then
      GetTypeFromGraphQLType(t.name) + (if t.isArray then "[]" else "") + (if !t.isRequired then "| null" else "")
    else if t.isInput then
      t.name + (if t.isArray then "[]" else "") + (if !t.isRequired then "| null" else "")
    else
      GetModelName(t.name, mm) + (if t.isArray then "[]" else "") + (if !t.isRequired then "| null" else "")
  }

  /** A printed type expression read back: its base, whether it is a list, whether it admits null. */
  datatype TypeExpr = TypeExpr(base: string, isList: bool, isNullable: bool)

  /** Reads a type expression from the outside in: first the `| null` suffix, then `[]`. */
  function ParseFieldLikeType(s: string): TypeExpr
  {
    var (elem, nullable) := if EndsWith(s, "| null") then (s[..|s| - 6], true) else (s, false);
    if EndsWith(elem, "[]") then TypeExpr(elem[..|elem| - 2], true, nullable)
    else TypeExpr(elem, false, nullable)
  }

  /** A base type without a suffix of its own. */
  predicate Plain(b: string)
  {
    !EndsWith(b, "[]") && !EndsWith(b, "| null")
  }

  lemma NamePlain(b: string)
    requires IsName(b)
    ensures Plain(b)
  {
    if |b| >= 2 {
      assert b[|b| - 2..][1] == b[|b| - 1];
      assert IsNameChar(b[|b| - 1]);
    }
    if |b| >= 6 {
      assert b[|b| - 6..][0] == b[|b| - 6];
      assert IsNameChar(b[|b| - 6]);
    }
  }

  lemma BasePlain(t: TypeRef, mm: ModelMap)
    requires !t.isScalar ==> IsName(t.name)
    requires ModelsNamed(mm)
    ensures Plain(BaseType(t, mm)) && OneLine(BaseType(t, mm))
  {
    var b := BaseType(t, mm);
    if t.isScalar || (!t.isInput && b == "{}") {
      assert b == "number" || b == "boolean" || b == "string" || b == "{}";
    } else {
      if !t.isInput {
        ModelNameEmptyIffUnmapped(t.name, mm);
      }
      assert IsName(b);
      NamePlain(b);
      NameIsOneLine(b);
    }
  }

  /** Reading a printed type back recovers the base type, the list flag and the nullability:
      the list suffix belongs to the element type and `| null` to the whole expression. */
  lemma ParsePrintedType(t: TypeRef, mm: ModelMap)
    requires !t.isScalar ==> IsName(t.name)
    requires ModelsNamed(mm)
    ensures ParseFieldLikeType(PrintFieldLikeType(t, mm)) == TypeExpr(BaseType(t, mm), t.isArray, !t.isRequired)
  {
    var b := BaseType(t, mm);
    BasePlain(t, mm);
    var elem := b + ArraySuffix(t.isArray);
    var s := elem + NullSuffix(t.isRequired);
    assert s == PrintFieldLikeType(t, mm);
    if t.isRequired {
      assert s == elem;
      if t.isArray {
        assert s[|s| - 1] == ']';
        if |s| >= 6 {
          assert s[|s| - 6..][5] == s[|s| - 1];
        }
        assert !EndsWith(s, "| null");
        assert EndsWith(elem, "[]");
        assert elem[..|elem| - 2] == b;
      } else {
        assert elem == b;
      }
    } else {
      assert EndsWith(s, "| null");
      assert s[..|s| - 6] == elem;
      if t.isArray {
        assert EndsWith(elem, "[]");
        assert elem[..|elem| - 2] == b;
      } else {
        assert elem == b;
      }
    }
  }

  /** A printed type is a single line without surrounding spaces. */
  lemma PrintedTypeOneLine(t: TypeRef, mm: ModelMap)
    requires !t.isScalar ==> IsName(t.name)
    requires ModelsNamed(mm)
    ensures OneLine(PrintFieldLikeType(t, mm))
  {
    BasePlain(t, mm);
  }
}
