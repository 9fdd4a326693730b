// The normal form of each kind of value, in plain terms: numbers, references,
// optional branches, lists.

module Tier2Forms {
  import opened Text
  import opened Doubles
  import opened Tier2
  import opened Tier2Numbers

  // ---------------------------------------------------- numbers

  /** Under "number" the result is a float: the one spelled, or the nearest one;
      under "integer" an integral number becomes that integer, and any other
      number stays. */
  lemma NumberForms(depth: nat, v: Value, schema: Value, defs: Defs, strict: bool, r: Value)
    requires depth > 0 && Number(v).Some? && Norm(depth, v, schema, defs, strict) == Some(r)
    ensures Declares(schema, defs, "number") ==> r.Float? && (v.Float? ==> r == v)
    ensures Declares(schema, defs, "number") && v.Int? ==>
      Number(r).Some? && Integral(Number(r).value) && Number(r).value.Floor == Rounded(v.n)
    ensures Declares(schema, defs, "integer") ==>
      if Integral(Number(v).value) then r.Int? && Number(r) == Number(v) else r == v
  {
    hide Norm, Declares, FromInt, FitsDouble, Rounded;
    if v.Int? {
      FloorOfInt(v.n);
      ToFloat(v.n);
    }
    ZeroFits();
    if Declares(schema, defs, "number") {
      NumberCoerced(depth, v, schema, defs, strict, "number");
    }
    if Declares(schema, defs, "integer") {
      NumberCoerced(depth, v, schema, defs, strict, "integer");
    }
  }

  lemma ToFloat(n: int)
    ensures FromInt(n).Some? ==> FromInt(n).value.Finite? && FromInt(n).value.x == Rounded(n) as real
    ensures (Rounded(n) as real).Floor == Rounded(n) && Integral(Rounded(n) as real)
  {
    hide Nearest;
    FloorOfInt(Rounded(n));
  }

  /** Anything that is no number, no object and no list, where no single branch
      applies, is its own normal form; so is a number under no numeric type. */
  lemma OthersStay(depth: nat, v: Value, schema: Value, defs: Defs, strict: bool)
    requires depth > 0 && Resolve(schema, defs).Some? && "type" in Resolve(schema, defs).value
    requires !v.Obj? && !v.Arr?
    requires var t := Resolve(schema, defs).value["type"];
      (v.Int? || v.Float?) ==> t != Str("number") && t != Str("integer")
    ensures Norm(depth, v, schema, defs, strict) == Some(v)
  {
    hide Norm, Resolve, FromInt, Concrete;
    NormStep(depth, v, schema, defs, strict);
  }

  // ---------------------------------------------------- optional values

  const NULL_TYPE := Obj(map["type" := Str("null")])

  /** A value under an optional schema, spelled as a union with null, is
      normalized as under the schema itself; null stays null. */
  lemma OptionalForm(depth: nat, v: Value, b: Value, defs: Defs, strict: bool)
    requires depth > 0 && b.Obj? && Resolve(b, defs).Some? && Get(Resolve(b, defs).value, "type") != Str("null")
    ensures var union := Obj(map["anyOf" := Arr([b, NULL_TYPE])]);
      Norm(depth, v, union, defs, strict) == if v == Null then Some(Null) else Norm(depth - 1, v, b, defs, strict)
  {
    hide Norm, Resolve, Concrete, Coerce;
    var union := Obj(map["anyOf" := Arr([b, NULL_TYPE])]);
    Plain(union.fields, defs);
    OneConcrete(b, defs);
    NormStep(depth, v, union, defs, strict);
    UnionShape(v, union.fields, b, defs);
    NullStays(union.fields);
  }

  lemma NullStays(schema: Fields)
    ensures Coerce(Null, Get(schema, "type")) == Some(Null)
  {}

  /** A schema without a reference is itself. */
  lemma Plain(schema: Fields, defs: Defs)
    requires "$ref" !in schema
    ensures Resolve(Obj(schema), defs) == Some(schema)
  {}

  lemma UnionShape(v: Value, schema: Fields, b: Value, defs: Defs)
    requires schema == map["anyOf" := Arr([b, NULL_TYPE])] && Concrete([b, NULL_TYPE], defs) == Some([b])
    ensures ShapeOf(v, schema, defs) == if v == Null then Scalar else Branch(b)
  {
    hide Concrete;
    assert schema["anyOf"] == Arr([b, NULL_TYPE]);
    assert Branches(schema) == Arr([b, NULL_TYPE]);
    assert [b][0] == b;
  }

  lemma OneConcrete(b: Value, defs: Defs)
    requires b.Obj? && Resolve(b, defs).Some? && Get(Resolve(b, defs).value, "type") != Str("null")
    ensures Concrete([b, NULL_TYPE], defs) == Some([b])
  {
    assert "$ref" !in NULL_TYPE.fields;
    Plain(NULL_TYPE.fields, defs);
    hide Resolve, Concrete;
    NoBranches(defs);
    BranchSnoc([], b, [], defs);
    assert [] + [b] == [b];
    BranchSnoc([b], NULL_TYPE, [b], defs);
    assert [b] + [NULL_TYPE] == [b, NULL_TYPE] && [b] + [] == [b];
  }

  lemma NoBranches(defs: Defs)
    ensures Concrete([], defs) == Some([])
  {}

  lemma BranchSnoc(branches: seq<Value>, b: Value, before: seq<Value>, defs: Defs)
    requires Concrete(branches, defs) == Some(before) && b.Obj? && Resolve(b, defs).Some?
    ensures Concrete(branches + [b], defs) ==
            Some(before + (if Get(Resolve(b, defs).value, "type") != Str("null") then [b] else []))
  {
    hide Resolve;
    assert (branches + [b])[..|branches|] == branches;
  }

  /** A union with two branches that are not null is left as spelled. */
  lemma AmbiguousStays(depth: nat, v: Value, a: Value, b: Value, defs: Defs, strict: bool)
    requires depth > 0 && a.Obj? && Resolve(a, defs).Some? && Get(Resolve(a, defs).value, "type") != Str("null")
    requires b.Obj? && Resolve(b, defs).Some? && Get(Resolve(b, defs).value, "type") != Str("null")
    ensures Norm(depth, v, Obj(map["anyOf" := Arr([a, b])]), defs, strict) == Some(v)
  {
    var union := Obj(map["anyOf" := Arr([a, b])]);
    Plain(union.fields, defs);
    hide Norm, Resolve, Concrete, FromInt;
    NoBranches(defs);
    BranchSnoc([], a, [], defs);
    assert [] + [a] == [a];
    BranchSnoc([a], b, [a], defs);
    assert [a] + [b] == [a, b];
    NormStep(depth, v, union, defs, strict);
    assert union.fields["anyOf"] == Arr([a, b]);
    assert Branches(union.fields) == Arr([a, b]);
  }

  /** Where a schema's branches stand: under "anyOf", unless that is one of the
      values that count for nothing, and then under "oneOf". */
  lemma BranchesExactly(schema: Fields)
    ensures var v := if "anyOf" in schema then schema["anyOf"] else Null;
      if v == Null || v == Bool(false) || v == Int(0) || v == Float(Finite(0.0)) || v == Float(NegativeZero)
         || v == Str("") || v == Arr([]) || v == Obj(map[])
      then Branches(schema) == if "oneOf" in schema then schema["oneOf"] else Null
      else Branches(schema) == schema["anyOf"]
  {}

  // ---------------------------------------------------- objects

  /** An object is taken member by member where its schema calls it an object
      or lists properties. A list of required names that holds a list or an
      object, which no set can hold, refuses it. */
  lemma ObjectForm(depth: nat, fields: Fields, schema: Fields, defs: Defs, strict: bool)
    requires depth > 0 && "$ref" !in schema && ("type" in schema || ("anyOf" !in schema && "oneOf" !in schema))
    requires ("type" in schema && schema["type"] == Str("object")) || "properties" in schema
    ensures var r := Norm(depth, Obj(fields), Obj(schema), defs, strict);
      if "required" in schema && schema["required"].Arr?
         && exists k :: 0 <= k < |schema["required"].items| &&
                        (schema["required"].items[k].Arr? || schema["required"].items[k].Obj?)
      then r == None
      else var m := NormFields(depth, fields, schema, defs, strict); r == if m.None? then None else Some(Obj(m.value))
  {
    Plain(schema, defs);
    hide Norm, NormFields, Concrete, Resolve;
    NormStep(depth, Obj(fields), Obj(schema), defs, strict);
  }

  // ---------------------------------------------------- references

  /** A reference into "$defs" or "definitions" means its target, overridden by
      the keys spelled beside it. */
  lemma ReferenceForm(section: string, name: string, beside: Fields, target: Fields, defs: Defs)
    requires section == "$defs" || section == "definitions"
    requires section in defs && name in defs[section] && defs[section][name] == Obj(target) && '/' !in name
    requires "$ref" !in target && "$ref" !in beside
    ensures Resolve(Obj(beside["$ref" := Str("#/" + section + "/" + name)]), defs) == Some(target + beside)
  {
    hide Split;
    var ref := "#/" + section + "/" + name;
    var schema := beside["$ref" := Str(ref)];
    ReferenceParts(section, name);
    TargetIs(section, name, target, defs);
    hide Target, Resolvable;
    assert Merge(target, schema) == target + beside;
    assert Follow(target + beside, defs, {} + {ref}) == Some(target + beside);
    assert Follow(schema, defs, {}) == Some(target + beside);
  }

  lemma TargetIs(section: string, name: string, target: Fields, defs: Defs)
    requires Split("#/" + section + "/" + name, '/') == ["#", section, name]
    requires section in defs && name in defs[section] && defs[section][name] == Obj(target)
    ensures Target("#/" + section + "/" + name, defs) == Some(target)
  {
    hide Split;
  }

  lemma ReferenceParts(section: string, name: string)
    requires '/' !in name && (section == "$defs" || section == "definitions")
    ensures Split("#/" + section + "/" + name, '/') == ["#", section, name]
  {
    hide Split, IndexOf;
    assert '/' !in section;
    SplitFirst("#", '/', section + "/" + name);
    SplitFirst(section, '/', name);
    SplitAbsent(name, '/');
    assert "#/" + section + "/" + name == "#" + ['/'] + (section + "/" + name);
    assert section + "/" + name == section + ['/'] + name;
    assert ["#"] + ([section] + [name]) == ["#", section, name];
  }

  /** A reference to nothing, or back to itself, is refused. */
  lemma ReferenceRefused(ref: string, schema: Fields, defs: Defs)
    requires "$ref" in schema && schema["$ref"] == Str(ref)
    requires Target(ref, defs).Some? ==>
      "$ref" in Target(ref, defs).value && Target(ref, defs).value["$ref"] == Str(ref)
    ensures Resolve(Obj(schema), defs) == None
  {
    hide Target, Resolvable;
    if Target(ref, defs).Some? {
      var next := Merge(Target(ref, defs).value, schema);
      assert Follow(schema, defs, {}) == Follow(next, defs, {} + {ref});
    }
  }

  /** Definitions are read from "$defs" and "definitions" of the root schema. */
  lemma DefinitionsAre(schema: Fields, section: string)
    ensures section in DefsOf(schema) <==>
      (section == "$defs" || section == "definitions") && section in schema && schema[section].Obj?
    ensures section in DefsOf(schema) ==> DefsOf(schema)[section] == schema[section].fields
  {}

  // ---------------------------------------------------- lists

  /** A list under an item schema is normalized item by item. */
  lemma ListForm(depth: nat, items: seq<Value>, schema: Value, defs: Defs, strict: bool)
    requires depth > 0 && Resolve(schema, defs).Some? && "type" in Resolve(schema, defs).value
    requires "items" in Resolve(schema, defs).value && Resolve(schema, defs).value["items"].Obj?
    ensures var r, item := Norm(depth, Arr(items), schema, defs, strict), Resolve(schema, defs).value["items"];
      if exists k :: 0 <= k < |items| && Norm(depth - 1, items[k], item, defs, strict).None? then r == None
      else r.Some? && r.value.Arr? && |r.value.items| == |items| &&
           forall k :: 0 <= k < |items| ==> Norm(depth - 1, items[k], item, defs, strict) == Some(r.value.items[k])
  {
    hide Norm, Resolve, NormItems, Concrete;
    var s := Resolve(schema, defs).value;
    NormStep(depth, Arr(items), schema, defs, strict);
    assert ShapeOf(Arr(items), s, defs) == List(s["items"]);
  }
}
