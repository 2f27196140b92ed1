/** The two indexes `generate` builds before rendering: the input types by name, and for
    each object type the names of the input types its fields take as arguments. Both are
    built by a reduce whose object spread lets a later entry overwrite an earlier one. */
module Associations {
  import opened Text
  import opened Schema

  predicate IsInputArgument(a: Argument) { a.typeRef.isInput }

  /** A field with at least one input-typed argument. */
  predicate HasInputArgument(f: Field)
  {
    |Filter(f.arguments, IsInputArgument)| > 0
  }

  /** The filter in front of the association reduce: object types with such a field. */
  predicate HasAssociation(t: TypeObject)
  {
    t.typeRef.isObject && |Filter(t.fields, HasInputArgument)| > 0
  }

  /** The type names of the input-typed arguments, in argument order: the filter for input-typed
      arguments followed by the map to their type names. */
  function InputArgumentTypeNames(args: seq<Argument>): (r: seq<string>)
    ensures |r| == |Filter(args, IsInputArgument)| <= |args|
    ensures forall i :: 0 <= i < |r| ==> r[i] == Filter(args, IsInputArgument)[i].typeRef.name
    ensures forall n :: n in r <==>
              exists k :: 0 <= k < |args| && args[k].typeRef.isInput && args[k].typeRef.name == n
  {
    if args == [] then []
    else
      var rest := InputArgumentTypeNames(args[1..]);
      assert forall k :: 0 <= k < |args[1..]| ==> args[1..][k] == args[k + 1];
      (if args[0].typeRef.isInput then [args[0].typeRef.name] else []) + rest
  }

  /** The per-field lists concatenated, in field order. */
  function InputArgNames(fields: seq<Field>): seq<string>
  {
    if fields == [] then [] else InputArgumentTypeNames(fields[0].arguments) + InputArgNames(fields[1..])
  }

  /** Fields contribute in their order: the list of a + b is a's list followed by b's. */
  lemma {:induction false} InputArgNamesAppend(a: seq<Field>, b: seq<Field>)
    ensures InputArgNames(a + b) == InputArgNames(a) + InputArgNames(b)
    decreases |a|
  {
    if a == [] {
      assert a + b == b;
    } else {
      assert (a + b)[0] == a[0];
      assert (a + b)[1..] == a[1..] + b;
      InputArgNamesAppend(a[1..], b);
    }
  }

  /** A name is in the list exactly when some argument of some field is input-typed with that name. */
  lemma {:induction false} InputArgNamesMembership(fields: seq<Field>, n: string)
    ensures n in InputArgNames(fields) <==>
              exists j, k :: 0 <= j < |fields| && 0 <= k < |fields[j].arguments| &&
                fields[j].arguments[k].typeRef.isInput && fields[j].arguments[k].typeRef.name == n
    decreases |fields|
  {
    if fields != [] {
      InputArgNamesMembership(fields[1..], n);
      assert forall j :: 0 <= j < |fields[1..]| ==> fields[1..][j] == fields[j + 1];
      if n in InputArgNames(fields) && n !in InputArgumentTypeNames(fields[0].arguments) {
        var j, k :| 0 <= j < |fields[1..]| && 0 <= k < |fields[1..][j].arguments| &&
          fields[1..][j].arguments[k].typeRef.isInput && fields[1..][j].arguments[k].typeRef.name == n;
        assert fields[j + 1].arguments[k].typeRef.name == n;
      }
    }
  }

  /** A field passes the filter exactly when it contributes a name. */
  lemma HasInputArgumentIffNames(f: Field)
    ensures HasInputArgument(f) <==> |InputArgumentTypeNames(f.arguments)| > 0
  {
    var fs := Filter(f.arguments, IsInputArgument);
    var ns := InputArgumentTypeNames(f.arguments);
    if |fs| > 0 {
      assert fs[0] in fs;
      var k :| 0 <= k < |f.arguments| && f.arguments[k] == fs[0];
      assert f.arguments[k].typeRef.name in ns;
    }
    if |ns| > 0 {
      assert ns[0] in ns;
      var k :| 0 <= k < |f.arguments| && f.arguments[k].typeRef.isInput && f.arguments[k].typeRef.name == ns[0];
      assert f.arguments[k] in fs;
    }
  }

  /** An object type passes the association filter exactly when its list of names is not empty. */
  lemma HasAssociationIffNames(t: TypeObject)
    ensures HasAssociation(t) <==> t.typeRef.isObject && |InputArgNames(t.fields)| > 0
  {
    if |Filter(t.fields, HasInputArgument)| > 0 {
      FilteredFieldGivesName(t.fields);
    }
    if |InputArgNames(t.fields)| > 0 {
      NameComesFromFilteredField(t.fields);
    }
  }

  lemma FilteredFieldGivesName(fields: seq<Field>)
    requires |Filter(fields, HasInputArgument)| > 0
    ensures |InputArgNames(fields)| > 0
  {
    var fs := Filter(fields, HasInputArgument);
    assert fs[0] in fs;
    var j :| 0 <= j < |fields| && fields[j] == fs[0];
    HasInputArgumentIffNames(fields[j]);
    var n := InputArgumentTypeNames(fields[j].arguments)[0];
    assert n in InputArgumentTypeNames(fields[j].arguments);
    var k :| 0 <= k < |fields[j].arguments| && fields[j].arguments[k].typeRef.isInput &&
      fields[j].arguments[k].typeRef.name == n;
    InputArgNamesMembership(fields, n);
  }

  lemma NameComesFromFilteredField(fields: seq<Field>)
    requires |InputArgNames(fields)| > 0
    ensures |Filter(fields, HasInputArgument)| > 0
  {
    var ns := InputArgNames(fields);
    assert ns[0] in ns;
    InputArgNamesMembership(fields, ns[0]);
    var j, k :| 0 <= j < |fields| && 0 <= k < |fields[j].arguments| &&
      fields[j].arguments[k].typeRef.isInput && fields[j].arguments[k].typeRef.name == ns[0];
    assert ns[0] in InputArgumentTypeNames(fields[j].arguments);
    HasInputArgumentIffNames(fields[j]);
    assert fields[j] in Filter(fields, HasInputArgument);
  }

  // ---------------------------------------------------------------------------
  // Indexes by name

  /** reduce((acc, t) => ({...acc, [t.name]: value(t)}), acc) */
  function IndexByName<V>(ts: seq<TypeObject>, value: TypeObject -> V, acc: map<string, V>): map<string, V>
  {
    if ts == [] then acc else IndexByName(ts[1..], value, acc[ts[0].name := value(ts[0])])
  }

  predicate Keyed(p: TypeObject -> bool, t: TypeObject, k: string)
  {
    p(t) && t.name == k
  }

  /** The position of the last type with name k that satisfies p. */
  function LastMatch(ts: seq<TypeObject>, p: TypeObject -> bool, k: string): (r: Option<nat>)
    ensures r.None? <==> forall j :: 0 <= j < |ts| ==> !Keyed(p, ts[j], k)
    ensures r.Some? ==> r.value < |ts| && Keyed(p, ts[r.value], k) &&
                        forall j :: r.value < j < |ts| ==> !Keyed(p, ts[j], k)
  {
    if ts == [] then None
    else
      var rest := LastMatch(ts[1..], p, k);
      assert forall j :: 0 <= j < |ts[1..]| ==> ts[1..][j] == ts[j + 1];
      match rest
      case Some(i) => Some(i + 1)
      case None => if Keyed(p, ts[0], k) then Some(0) else None
  }

  /** Filtering and then reducing keeps, for each name, the value of the last type that passed. */
  lemma {:induction false} IndexFiltered<V>(ts: seq<TypeObject>, p: TypeObject -> bool, value: TypeObject -> V,
                                            acc: map<string, V>, k: string)
    ensures var m := IndexByName(Filter(ts, p), value, acc);
            match LastMatch(ts, p, k)
            case Some(i) => k in m && m[k] == value(ts[i])
            case None => (k in m <==> k in acc) && (k in acc ==> m[k] == acc[k])
    decreases |ts|
  {
    if ts != [] {
      var rest := Filter(ts[1..], p);
      assert ts[1..] == ts[1..];
      if p(ts[0]) {
        var f := [ts[0]] + rest;
        assert Filter(ts, p) == f;
        assert f[0] == ts[0] && f[1..] == rest;
        IndexFiltered(ts[1..], p, value, acc[ts[0].name := value(ts[0])], k);
      } else {
        assert Filter(ts, p) == rest;
        IndexFiltered(ts[1..], p, value, acc, k);
      }
      match LastMatch(ts[1..], p, k)
      case Some(i) => assert ts[1..][i] == ts[i + 1];
      case None =>
    }
  }

  /** inputTypesMap: the input types by name. */
  function InputTypesMap(types: seq<TypeObject>): map<string, TypeObject>
  {
    IndexByName(Filter(types, IsInputType), (t: TypeObject) => t, map[])
  }

  /** typeToInputTypeAssociation: for each associated object type, its input argument type names. */
  function TypeToInputTypeAssociation(types: seq<TypeObject>): map<string, seq<string>>
  {
    IndexByName(Filter(types, HasAssociation), (t: TypeObject) => InputArgNames(t.fields), map[])
  }

  /** A name is a key of the input type index exactly when an input type has that name; its
      value is the last such input type of the list, whose name is the key. */
  lemma InputTypesMapSpec(types: seq<TypeObject>, k: string)
    ensures k in InputTypesMap(types) <==>
              exists i :: 0 <= i < |types| && types[i].typeRef.isInput && types[i].name == k
    ensures k in InputTypesMap(types) ==>
              InputTypesMap(types)[k].name == k && InputTypesMap(types)[k].typeRef.isInput &&
              exists i :: 0 <= i < |types| && types[i] == InputTypesMap(types)[k] &&
                forall j :: i < j < |types| && types[j].typeRef.isInput ==> types[j].name != k
  {
    IndexFiltered(types, IsInputType, (t: TypeObject) => t, map[], k);
    match LastMatch(types, IsInputType, k)
    case Some(i) =>
    case None =>
      assert forall j :: 0 <= j < |types| ==> !Keyed(IsInputType, types[j], k);
  }

  /** A name is a key of the association index exactly when an object type of that name has a
      field with an input-typed argument; its value is that type's non-empty list of argument
      type names (the last such type's, should two share the name). */
  lemma AssociationSpec(types: seq<TypeObject>, k: string)
    ensures k in TypeToInputTypeAssociation(types) <==>
              exists i :: 0 <= i < |types| && types[i].typeRef.isObject && types[i].name == k &&
                |InputArgNames(types[i].fields)| > 0
    ensures k in TypeToInputTypeAssociation(types) ==>
              |TypeToInputTypeAssociation(types)[k]| > 0 &&
              exists i :: 0 <= i < |types| && types[i].typeRef.isObject && types[i].name == k &&
                TypeToInputTypeAssociation(types)[k] == InputArgNames(types[i].fields) &&
                forall j :: i < j < |types| && HasAssociation(types[j]) ==> types[j].name != k
  {
    var value := (t: TypeObject) => InputArgNames(t.fields);
    IndexFiltered(types, HasAssociation, value, map[], k);
    forall i | 0 <= i < |types| {
      HasAssociationIffNames(types[i]);
    }
    match LastMatch(types, HasAssociation, k)
    case Some(i) =>
    case None =>
      assert forall j :: 0 <= j < |types| ==> !Keyed(HasAssociation, types[j], k);
  }

  // ---------------------------------------------------------------------------
  // The association list used as a key

  /** A JavaScript array used as a property key is converted to the comma-join of its elements. */
  function AssociationKey(names: seq<string>): string
  {
    Join(",", names)
  }

  lemma SingletonKey(n: string)
    ensures AssociationKey([n]) == n
  {
  }

  /** Two or more names make a key with a comma in it, which is no name. */
  lemma SeveralNamesKeyIsNoName(names: seq<string>)
    requires |names| >= 2
    ensures !IsName(AssociationKey(names))
  {
    var key := AssociationKey(names);
    assert key == names[0] + "," + Join(",", names[1..]);
    assert key[|names[0]|] == ',';
    assert !IsNameChar(key[|names[0]|]);
  }

  /** In a schema with well-formed names the input type index has only names as keys, so a key
      made from two or more names finds nothing. */
  lemma SeveralNamesFindNoInputType(types: seq<TypeObject>, names: seq<string>)
    requires SchemaNamed(types)
    requires |names| >= 2
    ensures AssociationKey(names) !in InputTypesMap(types)
  {
    var key := AssociationKey(names);
    SeveralNamesKeyIsNoName(names);
    InputTypesMapSpec(types, key);
  }
}
