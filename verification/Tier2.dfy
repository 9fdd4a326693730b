// The schema-directed normal form of a tool call
// (declarant/pydeclarant/mcp_adapter.py, tier 2): every spelling of one call
// must give one key.

module Tier2 {
  import opened Text
  import opened Hashing
  import opened Doubles
  import D = Declarant
  import Reporting

  /** A decoded JSON value. */
  datatype Value =
    | Null | Bool(b: bool) | Int(n: int) | Float(f: Double) | Str(s: string)
    | Arr(items: seq<Value>) | Obj(fields: Fields)

  type Fields = map<string, Value>

  /** The object members of a value; any other value has none. */
  function AsMap(v: Value): Fields { if v.Obj? then v.fields else map[] }

  function Get(m: Fields, key: string): Value { if key in m then m[key] else Null }

  /** Python truth of a decoded value. */
  predicate Truthy(v: Value) {
    match v
    case Null => false
    case Bool(b) => b
    case Int(n) => n != 0
    case Float(f) => f != Finite(0.0) && f != NegativeZero
    case Str(s) => s != ""
    case Arr(items) => items != []
    case Obj(fields) => fields != map[]
  }

  /** "$defs" and "definitions" of the root schema. */
  type Defs = map<string, Fields>

  function DefsOf(schema: Fields): Defs {
    map key | key in {"$defs", "definitions"} && key in schema && schema[key].Obj? :: schema[key].fields
  }

  // ---------------------------------------------------- following references

  function Target(r: string, defs: Defs): Option<Fields> {
    var parts := Split(r, '/');
    if |parts| == 3 && parts[0] == "#" && parts[1] in defs && parts[2] in defs[parts[1]]
       && defs[parts[1]][parts[2]].Obj?
    then Some(defs[parts[1]][parts[2]].fields)
    else None
  }

  /** The finitely many references that can resolve. */
  function Resolvable(defs: Defs): set<string> {
    set section, name | section in defs && name in defs[section] :: "#/" + section + "/" + name
  }

  lemma TargetResolvable(r: string, defs: Defs)
    requires Target(r, defs).Some?
    ensures r in Resolvable(defs)
  {
    var parts := Split(r, '/');
    JoinSplit(r, '/');
    assert parts == ["#", parts[1], parts[2]];
    ThreeJoined(parts[1], parts[2]);
  }

  lemma ThreeJoined(a: string, b: string)
    ensures Join(["#", a, b], "/") == "#/" + a + "/" + b
  {
    assert ["#", a, b][1..] == [a, b] && [a, b][1..] == [b];
    assert Join([a, b], "/") == a + "/" + b;
    assert "#" + "/" + (a + "/" + b) == "#/" + a + "/" + b;
  }

  /** Keys spelled beside a reference override the target's. */
  function Merge(target: Fields, schema: Fields): Fields {
    target + (schema - {"$ref"})
  }

  /** Following a chain of references ends: the ones seen grow within the
      finitely many that resolve. */
  function Follow(schema: Fields, defs: Defs, seen: set<string>): Option<Fields>
    decreases Resolvable(defs) - seen
  {
    if "$ref" !in schema then Some(schema)
    else if !schema["$ref"].Str? || schema["$ref"].s in seen then None
    else match Target(schema["$ref"].s, defs)
      case None => None
      case Some(target) =>
        TargetResolvable(schema["$ref"].s, defs);
        Follow(Merge(target, schema), defs, seen + {schema["$ref"].s})
  }

  function Resolve(schema: Value, defs: Defs): Option<Fields> { Follow(AsMap(schema), defs, {}) }

  /** `_resolve` as its loop; None is a refusal. */
  method ResolveRefs(schema: Value, defs: Defs) returns (r: Option<Fields>)
    ensures r == Resolve(schema, defs)
  {
    hide Target, Resolvable, Merge;
    var current := AsMap(schema);
    var seen: set<string> := {};
    while "$ref" in current
      invariant Follow(current, defs, seen) == Resolve(schema, defs)
      decreases Resolvable(defs) - seen
    {
      if !current["$ref"].Str? {
        return None;
      }
      var name := current["$ref"].s;
      if name in seen {
        return None;
      }
      var target := Target(name, defs);
      if target.None? {
        return None;
      }
      TargetResolvable(name, defs);
      current, seen := Merge(target.value, current), seen + {name};
    }
    return Some(current);
  }

  // ---------------------------------------------------- the normal form

  predicate IsNumber(v: Value) { v.Int? || v.Float? }

  /** The number a value denotes; both zeros denote zero. */
  function Number(v: Value): Option<real> {
    match v
    case Int(n) => Some(n as real)
    case Float(Finite(x)) => Some(x)
    case Float(NegativeZero) => Some(0.0)
    case _ => None
  }

  /** A scalar under its declared type: 500 and 500.0 become one number. An
      integer too large for a float is refused. */
  function Coerce(v: Value, declared: Value): Option<Value> {
    if v.Int? && (declared == Str("number") || declared == Str("integer")) then
      var f := FromInt(v.n);
      if f.None? then None else Some(if declared == Str("number") then Float(f.value) else v)
    else if v.Float? && declared == Str("integer") && Number(v).Some? && Integral(Number(v).value) then
      Some(Int(Number(v).value.Floor))
    else Some(v)
  }

  /** The branches of a schema without a top-level type. */
  function Branches(schema: Fields): Value {
    if Truthy(Get(schema, "anyOf")) then Get(schema, "anyOf") else Get(schema, "oneOf")
  }

  /** The branches that are objects and not null; None when one of them cannot
      be resolved. */
  function Concrete(branches: seq<Value>, defs: Defs): Option<seq<Value>> {
    if branches == [] then Some([])
    else match Concrete(branches[..|branches| - 1], defs)
      case None => None
      case Some(before) =>
        var b := branches[|branches| - 1];
        if !b.Obj? then Some(before)
        else match Resolve(b, defs)
          case None => None
          case Some(r) => Some(before + (if Get(r, "type") != Str("null") then [b] else []))
  }

  /** The required names can be collected in a set. */
  predicate Listable(schema: Fields) {
    var required := Get(schema, "required");
    required.Arr? ==> forall k :: 0 <= k < |required.items| ==> !required.items[k].Arr? && !required.items[k].Obj?
  }

  /** What a resolved schema makes of a value: refuse, descend into the single
      branch of a union, into an object, into a list, or coerce a scalar. */
  datatype Shape = Refused | Branch(schema: Value) | Object | List(items: Value) | Scalar

  function ShapeOf(v: Value, schema: Fields, defs: Defs): Shape {
    var branches := Branches(schema);
    var union := "type" !in schema && branches.Arr? && v != Null;
    if union && Concrete(branches.items, defs).None? then Refused
    else if union && |Concrete(branches.items, defs).value| == 1 then Branch(Concrete(branches.items, defs).value[0])
    else if v.Obj? && (Get(schema, "type") == Str("object") || "properties" in schema) then
      (if Listable(schema) then Object else Refused)
    else if v.Arr? && Get(schema, "items").Obj? then List(Get(schema, "items"))
    else Scalar
  }

  function Properties(schema: Fields): Fields { AsMap(Get(schema, "properties")) }

  /** A property's schema; anything but an object declares nothing. */
  function Property(schema: Fields, name: string): Value {
    if name in Properties(schema) && Properties(schema)[name].Obj? then Properties(schema)[name] else Obj(map[])
  }

  predicate IsRequired(schema: Fields, name: string) {
    Get(schema, "required").Arr? && Str(name) in Get(schema, "required").items
  }

  /** The value a call gives a declared property: spelled, or the discoverable
      default; unknowable ones are refused. */
  datatype Given = Unkeyable | Omitted | Given(v: Value)

  function Effective(fields: Fields, schema: Fields, defs: Defs, strict: bool, name: string): Given {
    var prop := Property(schema, name);
    if name in fields then Given(fields[name])
    else if "default" in prop.fields then Given(prop.fields["default"])
    else match Resolve(prop, defs)
      case None => Unkeyable
      case Some(r) =>
        if "default" in r then Given(r["default"])
        else if IsRequired(schema, name) || strict then Unkeyable
        else Omitted
  }

  /** `_tier2_value`. `depth` is how deep the interpreter lets it recurse;
      None is any exception, all of them before anything is declared. */
  function Norm(depth: nat, v: Value, schema: Value, defs: Defs, strict: bool): Option<Value>
    decreases depth, 1
  {
    if depth == 0 then None
    else match Resolve(schema, defs)
      case None => None
      case Some(s) =>
        match ShapeOf(v, s, defs)
        case Refused => None
        case Branch(b) => Norm(depth - 1, v, b, defs, strict)
        case Object =>
          var r := NormFields(depth, v.fields, s, defs, strict);
          if r.None? then None else Some(Obj(r.value))
        case List(items) =>
          var r := NormItems(depth, v.items, items, defs, strict);
          if r.None? then None else Some(Arr(r.value))
        case Scalar => Coerce(v, Get(s, "type"))
  }

  function NormItems(depth: nat, items: seq<Value>, schema: Value, defs: Defs, strict: bool): (r: Option<seq<Value>>)
    requires depth > 0
    ensures r.Some? ==> |r.value| == |items| && forall k :: 0 <= k < |items| ==>
      Norm(depth - 1, items[k], schema, defs, strict) == Some(r.value[k])
    ensures r.None? ==> exists k :: 0 <= k < |items| && Norm(depth - 1, items[k], schema, defs, strict).None?
    decreases depth, 0, |items|
  {
    if items == [] then Some([])
    else
      var n := |items| - 1;
      var before := NormItems(depth, items[..n], schema, defs, strict);
      var last := Norm(depth - 1, items[n], schema, defs, strict);
      if before.None? then
        assert exists k :: 0 <= k < n && Norm(depth - 1, items[..n][k], schema, defs, strict).None?;
        None
      else if last.None? then None
      else Some(before.value + [last.value])
  }

  /** The names that matter: declared, or spelled. */
  function Names(fields: Fields, schema: Fields): set<string> {
    Properties(schema).Keys + fields.Keys
  }

  /** One member of the normal form. */
  function NormField(depth: nat, fields: Fields, schema: Fields, defs: Defs, strict: bool,
                     name: string): Given
    requires depth > 0
    decreases depth, 0, 0
  {
    if name !in Properties(schema) then (if name in fields then Given(fields[name]) else Omitted)
    else match Effective(fields, schema, defs, strict, name)
      case Unkeyable => Unkeyable
      case Omitted => Omitted
      case Given(v) =>
        var r := Norm(depth - 1, v, Property(schema, name), defs, strict);
        if r.None? then Unkeyable else Given(r.value)
  }

  function NormFields(depth: nat, fields: Fields, schema: Fields, defs: Defs, strict: bool):
    (r: Option<Fields>)
    requires depth > 0
    decreases depth, 0, 1
  {
    var names := Names(fields, schema);
    if exists name :: name in names && NormField(depth, fields, schema, defs, strict, name).Unkeyable? then None
    else Some(map name | name in names && NormField(depth, fields, schema, defs, strict, name).Given?
                :: NormField(depth, fields, schema, defs, strict, name).v)
  }

  // ---------------------------------------------------- which members a call has

  /** The schema declares this property. */
  ghost predicate Declared(schema: Fields, name: string) {
    "properties" in schema && schema["properties"].Obj? && name in schema["properties"].fields
  }

  /** What is declared of a property; anything but an object declares nothing. */
  ghost function DeclaredAs(schema: Fields, name: string): Value
    requires Declared(schema, name)
  {
    if schema["properties"].fields[name].Obj? then schema["properties"].fields[name] else Obj(map[])
  }

  /** A default can be read off the property, or off what it refers to. */
  ghost predicate Defaulted(schema: Fields, defs: Defs, name: string)
    requires Declared(schema, name)
  {
    var prop := DeclaredAs(schema, name);
    "default" in prop.fields || (Resolve(prop, defs).Some? && "default" in Resolve(prop, defs).value)
  }

  ghost predicate Demanded(schema: Fields, name: string) {
    "required" in schema && schema["required"].Arr? && Str(name) in schema["required"].items
  }

  /** The effective value of an omitted property cannot be known: it has no
      default, and it is required, or arguments are strict, or its reference
      does not resolve. */
  ghost predicate Withheld(fields: Fields, schema: Fields, defs: Defs, strict: bool, name: string) {
    && Declared(schema, name) && name !in fields && !Defaulted(schema, defs, name)
    && (Demanded(schema, name) || strict || Resolve(DeclaredAs(schema, name), defs).None?)
  }

  /** A property is kept if it is spelled or has a default, and so is everything
      spelled that the schema does not declare. */
  ghost predicate Kept(fields: Fields, schema: Fields, defs: Defs, name: string) {
    name in fields || (Declared(schema, name) && Defaulted(schema, defs, name))
  }

  /** The members of a normal form are the kept ones, undeclared ones exactly as
      spelled. */
  ghost predicate MembersKept(fields: Fields, schema: Fields, defs: Defs, out: Fields) {
    && (forall name :: name in out <==> Kept(fields, schema, defs, name))
    && forall name :: name in fields && !Declared(schema, name) ==> name in out && out[name] == fields[name]
  }

  lemma MemberIs(depth: nat, fields: Fields, schema: Fields, defs: Defs, strict: bool, name: string)
    requires depth > 0
    ensures var f := NormField(depth, fields, schema, defs, strict, name);
      && (Withheld(fields, schema, defs, strict, name) ==> f.Unkeyable?)
      && (f.Given? ==> Kept(fields, schema, defs, name))
      && (f.Omitted? ==> !Kept(fields, schema, defs, name))
      && (!Declared(schema, name) && name in fields ==> f == Given(fields[name]))
  {
    hide Norm, Resolve;
  }

  /** A withheld property refuses the object; otherwise its members are kept. */
  lemma FieldsMembers(depth: nat, fields: Fields, schema: Fields, defs: Defs, strict: bool)
    requires depth > 0
    ensures var r := NormFields(depth, fields, schema, defs, strict);
      && ((exists name :: Withheld(fields, schema, defs, strict, name)) ==> r.None?)
      && (r.Some? ==> MembersKept(fields, schema, defs, r.value))
  {
    hide NormFields, NormField, Withheld, Kept, Declared;
    FieldsExactly(depth, fields, schema, defs, strict);
    var r := NormFields(depth, fields, schema, defs, strict);
    if name :| Withheld(fields, schema, defs, strict, name) {
      MemberIs(depth, fields, schema, defs, strict, name);
      assert Blocks(depth, fields, schema, defs, strict, name);
    }
    if r.Some? {
      forall name
        ensures name in r.value <==> Kept(fields, schema, defs, name)
        ensures name in fields && !Declared(schema, name) ==> name in r.value && r.value[name] == fields[name]
      {
        MemberIs(depth, fields, schema, defs, strict, name);
        assert !Blocks(depth, fields, schema, defs, strict, name);
      }
    }
  }

  // ---------------------------------------------------- the source's own form

  /** `_tier2_value`. */
  method Tier2Value(depth: nat, v: Value, schema: Value, defs: Defs, strict: bool) returns (r: Option<Value>)
    ensures r == Norm(depth, v, schema, defs, strict)
    decreases depth, 1
  {
    hide Resolve, ShapeOf, NormFields, NormItems, Coerce, Norm;
    NormEnds(depth, v, schema, defs, strict);
    if depth == 0 {
      return None;
    }
    var s := ResolveRefs(schema, defs);
    if s.None? {
      return None;
    }
    NormStep(depth, v, schema, defs, strict);
    match ShapeOf(v, s.value, defs) {
      case Refused => return None;
      case Branch(b) => r := Tier2Value(depth - 1, v, b, defs, strict);
      case Object =>
        ObjectShape(v, s.value, defs);
        var out := Tier2Object(depth, v.fields, s.value, defs, strict);
        return if out.None? then None else Some(Obj(out.value));
      case List(items) =>
        ListShape(v, s.value, defs);
        var out := Tier2List(depth, v.items, items, defs, strict);
        return if out.None? then None else Some(Arr(out.value));
      case Scalar => return Coerce(v, Get(s.value, "type"));
    }
  }

  lemma ObjectShape(v: Value, schema: Fields, defs: Defs)
    ensures ShapeOf(v, schema, defs).Object? ==> v.Obj? && Listable(schema)
  {
    hide Concrete;
  }

  lemma ListShape(v: Value, schema: Fields, defs: Defs)
    ensures ShapeOf(v, schema, defs).List? ==> v.Arr?
  {
    hide Concrete;
  }

  /** One level of the normal form. */
  lemma NormStep(depth: nat, v: Value, schema: Value, defs: Defs, strict: bool)
    requires depth > 0 && Resolve(schema, defs).Some?
    ensures var s, r := Resolve(schema, defs).value, Norm(depth, v, schema, defs, strict);
      match ShapeOf(v, s, defs)
      case Refused => r == None
      case Branch(b) => r == Norm(depth - 1, v, b, defs, strict)
      case Object => v.Obj? &&
        (var m := NormFields(depth, v.fields, s, defs, strict); r == if m.None? then None else Some(Obj(m.value)))
      case List(items) => v.Arr? &&
        (var m := NormItems(depth, v.items, items, defs, strict); r == if m.None? then None else Some(Arr(m.value)))
      case Scalar => r == Coerce(v, Get(s, "type"))
  {
    hide Resolve, ShapeOf, NormFields, NormItems, Coerce;
    ObjectShape(v, Resolve(schema, defs).value, defs);
    ListShape(v, Resolve(schema, defs).value, defs);
  }

  lemma NormEnds(depth: nat, v: Value, schema: Value, defs: Defs, strict: bool)
    ensures depth == 0 || Resolve(schema, defs).None? ==> Norm(depth, v, schema, defs, strict).None?
  {
    hide Resolve, ShapeOf, NormFields, NormItems, Coerce;
  }

  method Tier2List(depth: nat, items: seq<Value>, schema: Value, defs: Defs, strict: bool)
    returns (r: Option<seq<Value>>)
    requires depth > 0
    ensures r == NormItems(depth, items, schema, defs, strict)
    decreases depth, 0, 1
  {
    hide Norm;
    var out: seq<Value> := [];
    for k := 0 to |items|
      invariant NormItems(depth, items[..k], schema, defs, strict) == Some(out)
    {
      var one := Tier2Value(depth - 1, items[k], schema, defs, strict);
      assert items[..k + 1][..k] == items[..k];
      if one.None? {
        SomeItemRefused(depth, items, schema, defs, strict, k);
        return None;
      }
      out := out + [one.value];
    }
    assert items[..|items|] == items;
    return Some(out);
  }

  lemma SomeItemRefused(depth: nat, items: seq<Value>, schema: Value, defs: Defs, strict: bool, k: nat)
    requires depth > 0 && k < |items| && Norm(depth - 1, items[k], schema, defs, strict).None?
    ensures NormItems(depth, items, schema, defs, strict).None?
  {
    hide Norm;
  }

  /** `_tier2_object`: declared properties first, then everything undeclared
      exactly as spelled. */
  method Tier2Object(depth: nat, fields: Fields, schema: Fields, defs: Defs, strict: bool)
    returns (r: Option<Fields>)
    requires depth > 0
    ensures r == if Listable(schema) then NormFields(depth, fields, schema, defs, strict) else None
    ensures (exists name :: Withheld(fields, schema, defs, strict, name)) ==> r.None?
    ensures r.Some? ==> MembersKept(fields, schema, defs, r.value)
    decreases depth, 0, 1
  {
    hide *;
    FieldsMembers(depth, fields, schema, defs, strict);
    if !Listable(schema) {
      return None;
    }
    var properties := Properties(schema);
    var out: Fields := map[];
    var todo := properties.Keys;
    ghost var done: set<string> := {};
    NothingBuilt(depth, fields, schema, defs, strict);
    while todo != {}
      invariant todo + done == properties.Keys
      invariant Built(depth, fields, schema, defs, strict, done, out)
      decreases |todo|
    {
      var name :| name in todo;
      var member := Tier2Member(depth, fields, schema, defs, strict, name);
      if member.Unkeyable? {
        OneBlocks(depth, fields, schema, defs, strict, name);
        return None;
      }
      BuiltNext(depth, fields, schema, defs, strict, done, out, name);
      if member.Given? {
        out := out[name := member.v];
      }
      done := done + {name};
      todo := todo - {name};
    }
    var extra := map name | name in fields && name !in properties :: fields[name];
    BuiltAll(depth, fields, schema, defs, strict, out, extra);
    return Some(out + extra);
  }

  /** The members built so far, for the declared names in `done`. */
  ghost predicate Built(depth: nat, fields: Fields, schema: Fields, defs: Defs, strict: bool,
                        done: set<string>, out: Fields)
    requires depth > 0
  {
    forall name :: (name in done ==> !NormField(depth, fields, schema, defs, strict, name).Unkeyable?)
      && (name in out <==> name in done && NormField(depth, fields, schema, defs, strict, name).Given?)
      && (name in out ==> NormField(depth, fields, schema, defs, strict, name) == Given(out[name]))
  }

  lemma NothingBuilt(depth: nat, fields: Fields, schema: Fields, defs: Defs, strict: bool)
    requires depth > 0
    ensures Built(depth, fields, schema, defs, strict, {}, map[])
  {
    hide NormField;
  }

  lemma BuiltNext(depth: nat, fields: Fields, schema: Fields, defs: Defs, strict: bool,
                  done: set<string>, out: Fields, name: string)
    requires depth > 0 && Built(depth, fields, schema, defs, strict, done, out)
    requires !NormField(depth, fields, schema, defs, strict, name).Unkeyable?
    ensures var r := NormField(depth, fields, schema, defs, strict, name);
      Built(depth, fields, schema, defs, strict, done + {name}, if r.Given? then out[name := r.v] else out)
  {
    hide NormField;
  }

  lemma BuiltAll(depth: nat, fields: Fields, schema: Fields, defs: Defs, strict: bool,
                 out: Fields, extra: Fields)
    requires depth > 0 && Built(depth, fields, schema, defs, strict, Properties(schema).Keys, out)
    requires extra == map name | name in fields && name !in Properties(schema) :: fields[name]
    ensures NormFields(depth, fields, schema, defs, strict) == Some(out + extra)
  {
    hide NormField, NormFields, Properties;
    UndeclaredAsSpelled(depth, fields, schema, defs, strict);
    IsNormalForm(depth, fields, schema, defs, strict, out + extra);
  }

  lemma OneBlocks(depth: nat, fields: Fields, schema: Fields, defs: Defs, strict: bool, name: string)
    requires depth > 0 && NormField(depth, fields, schema, defs, strict, name).Unkeyable?
    ensures NormFields(depth, fields, schema, defs, strict).None?
  {
    hide NormField, NormFields;
    FieldsExactly(depth, fields, schema, defs, strict);
    assert Blocks(depth, fields, schema, defs, strict, name);
  }

  /** A map with exactly the given members is the normal form. */
  lemma IsNormalForm(depth: nat, fields: Fields, schema: Fields, defs: Defs, strict: bool,
                     m: Fields)
    requires depth > 0
    requires forall name :: !NormField(depth, fields, schema, defs, strict, name).Unkeyable?
    requires forall name :: name in m <==> NormField(depth, fields, schema, defs, strict, name).Given?
    requires forall name :: name in m ==> NormField(depth, fields, schema, defs, strict, name) == Given(m[name])
    ensures NormFields(depth, fields, schema, defs, strict) == Some(m)
  {
    hide NormField, NormFields;
    FieldsExactly(depth, fields, schema, defs, strict);
    assert forall name :: !Blocks(depth, fields, schema, defs, strict, name);
    assert NormFields(depth, fields, schema, defs, strict).value == m;
  }

  lemma UndeclaredAsSpelled(depth: nat, fields: Fields, schema: Fields, defs: Defs, strict: bool)
    requires depth > 0
    ensures forall name :: name !in Properties(schema) ==>
      NormField(depth, fields, schema, defs, strict, name) == if name in fields then Given(fields[name]) else Omitted
  {}

  method Tier2Member(depth: nat, fields: Fields, schema: Fields, defs: Defs, strict: bool, name: string)
    returns (r: Given)
    requires depth > 0 && name in Properties(schema)
    ensures r == NormField(depth, fields, schema, defs, strict, name)
    decreases depth, 0, 0
  {
    hide Norm, Resolve;
    var prop := Property(schema, name);
    var v;
    if name in fields {
      v := fields[name];
    } else if "default" in prop.fields {
      v := prop.fields["default"];
    } else {
      var resolved := ResolveRefs(prop, defs);
      if resolved.None? {
        return Unkeyable;
      }
      if "default" in resolved.value {
        v := resolved.value["default"];
      } else if IsRequired(schema, name) {
        return Unkeyable;
      } else if strict {
        return Unkeyable;
      } else {
        return Omitted;
      }
    }
    var one := Tier2Value(depth - 1, v, prop, defs, strict);
    return if one.None? then Unkeyable else Given(one.value);
  }

  /** `_tier2_args`. */
  function Args(depth: nat, raw: Fields, schema: Value, strict: bool): Option<Fields> {
    var defs := DefsOf(AsMap(schema));
    if depth == 0 then None
    else match Resolve(schema, defs)
      case None => None
      case Some(s) => if Listable(s) then NormFields(depth, raw, s, defs, strict) else None
  }

  method Tier2Args(depth: nat, raw: Fields, schema: Value, strict: bool) returns (r: Option<Fields>)
    ensures r == Args(depth, raw, schema, strict)
  {
    hide Resolve, NormFields;
    if depth == 0 {
      return None;
    }
    var defs := DefsOf(AsMap(schema));
    var s := ResolveRefs(schema, defs);
    if s.None? {
      return None;
    }
    r := Tier2Object(depth, raw, s.value, defs, strict);
  }

  /** Some property of the call is withheld, or its schema does not resolve. */
  ghost predicate WithheldCall(raw: Fields, schema: Value, strict: bool) {
    var defs := DefsOf(AsMap(schema));
    Resolve(schema, defs).None? || exists name :: Withheld(raw, Resolve(schema, defs).value, defs, strict, name)
  }

  /** The arguments of a call: refused if a property is withheld, and otherwise
      exactly what is spelled or has a default. Under strict arguments that is
      every declared property. */
  lemma ArgsMembers(depth: nat, raw: Fields, schema: Value, strict: bool)
    ensures WithheldCall(raw, schema, strict) ==> Args(depth, raw, schema, strict).None?
    ensures Args(depth, raw, schema, strict).Some? ==>
      var defs := DefsOf(AsMap(schema)); var s := Resolve(schema, defs).value;
      var out := Args(depth, raw, schema, strict).value;
      && MembersKept(raw, s, defs, out)
      && (forall name :: Declared(s, name) && name !in out ==> name !in raw && !Demanded(s, name) && !strict)
  {
    hide Resolve, NormFields, Listable, Defaulted, DeclaredAs;
    var defs := DefsOf(AsMap(schema));
    if depth > 0 && Resolve(schema, defs).Some? {
      var s := Resolve(schema, defs).value;
      FieldsMembers(depth, raw, s, defs, strict);
      if Args(depth, raw, schema, strict).Some? {
        forall name | Declared(s, name) && name !in Args(depth, raw, schema, strict).value
          ensures name !in raw && !Demanded(s, name) && !strict
        {
          assert !Withheld(raw, s, defs, strict, name);
        }
      }
    }
  }

  // ---------------------------------------------------- two spellings of one call

  /** The float a number is closest to. */
  function AsDouble(v: Value): Option<Double>
    requires IsNumber(v)
  {
    if v.Int? then FromInt(v.n) else Some(v.f)
  }

  /** Two scalars that are one value, one float where a number is declared, or
      one integer where that is declared. */
  ghost predicate SameScalar(a: Value, b: Value, declared: Value) {
    || a == b
    || (IsNumber(a) && IsNumber(b) && AsDouble(a).Some? && AsDouble(b).Some? &&
        ( || (declared == Str("number") && AsDouble(a) == AsDouble(b))
          || (declared == Str("integer") && Number(a) == Number(b) && Number(a).Some? && Integral(Number(a).value))))
  }

  /** `a` and `b` differ at most by omitting or spelling discoverable defaults,
      at any depth, and by the form of declared numbers. */
  ghost predicate Same(depth: nat, a: Value, b: Value, schema: Value, defs: Defs, strict: bool)
    decreases depth, 1
  {
    if depth == 0 || Resolve(schema, defs).None? then a == b
    else
      var s := Resolve(schema, defs).value;
      ShapeOf(a, s, defs) == ShapeOf(b, s, defs) &&
      match ShapeOf(a, s, defs)
      case Refused => true
      case Branch(branch) => Same(depth - 1, a, b, branch, defs, strict)
      case Object => SameFields(depth, a.fields, b.fields, s, defs, strict)
      case List(items) => SameItems(depth, a.items, b.items, items, defs, strict)
      case Scalar => SameScalar(a, b, Get(s, "type"))
  }

  ghost predicate SameItems(depth: nat, a: seq<Value>, b: seq<Value>, schema: Value, defs: Defs, strict: bool)
    requires depth > 0
    decreases depth, 0
  {
    |a| == |b| && forall k :: 0 <= k < |a| ==> Same(depth - 1, a[k], b[k], schema, defs, strict)
  }

  ghost predicate SameFields(depth: nat, a: Fields, b: Fields, schema: Fields,
                             defs: Defs, strict: bool)
    requires depth > 0
    decreases depth, 0
  {
    forall name :: name in Names(a, schema) + Names(b, schema) ==> SameField(depth, a, b, schema, defs, strict, name)
  }

  ghost predicate SameField(depth: nat, a: Fields, b: Fields, schema: Fields,
                            defs: Defs, strict: bool, name: string)
    requires depth > 0
    decreases depth, 0, 0
  {
    if name !in Properties(schema) then name in a && name in b && a[name] == b[name]
    else
      var x, y := Effective(a, schema, defs, strict, name), Effective(b, schema, defs, strict, name);
      if x.Given? && y.Given? then Same(depth - 1, x.v, y.v, Property(schema, name), defs, strict) else x == y
  }

  /** One level of the spelling relation. */
  lemma SameStep(depth: nat, a: Value, b: Value, schema: Value, defs: Defs, strict: bool)
    requires depth > 0 && Resolve(schema, defs).Some?
      && ShapeOf(a, Resolve(schema, defs).value, defs) == ShapeOf(b, Resolve(schema, defs).value, defs)
    ensures var s, r := Resolve(schema, defs).value, Same(depth, a, b, schema, defs, strict);
      match ShapeOf(a, s, defs)
      case Refused => r
      case Branch(branch) => r <==> Same(depth - 1, a, b, branch, defs, strict)
      case Object => a.Obj? && b.Obj? && (r <==> SameFields(depth, a.fields, b.fields, s, defs, strict))
      case List(items) => a.Arr? && b.Arr? && (r <==> SameItems(depth, a.items, b.items, items, defs, strict))
      case Scalar => r <==> SameScalar(a, b, Get(s, "type"))
  {
    hide Resolve, ShapeOf, SameFields, SameScalar;
    ObjectShape(a, Resolve(schema, defs).value, defs);
    ListShape(a, Resolve(schema, defs).value, defs);
    ObjectShape(b, Resolve(schema, defs).value, defs);
    ListShape(b, Resolve(schema, defs).value, defs);
  }

  lemma SameShapes(depth: nat, a: Value, b: Value, schema: Value, defs: Defs, strict: bool)
    requires Same(depth, a, b, schema, defs, strict)
    ensures if depth == 0 || Resolve(schema, defs).None? then a == b
            else ShapeOf(a, Resolve(schema, defs).value, defs) == ShapeOf(b, Resolve(schema, defs).value, defs)
  {
    hide Resolve, ShapeOf, SameFields, SameScalar;
  }

  lemma SameCoerces(a: Value, b: Value, declared: Value)
    ensures SameScalar(a, b, declared) ==> Coerce(a, declared) == Coerce(b, declared)
    ensures Coerce(a, declared).Some? && Coerce(a, declared) == Coerce(b, declared) ==> SameScalar(a, b, declared)
  {
    hide FromInt, FitsDouble;
    if a.Int? { FloorOfInt(a.n); }
    if b.Int? { FloorOfInt(b.n); }
  }

  /** Spellings of one call have one normal form, or are both refused. */
  lemma {:induction false} SameNorm(depth: nat, a: Value, b: Value, schema: Value, defs: Defs, strict: bool)
    requires Same(depth, a, b, schema, defs, strict)
    ensures Norm(depth, a, schema, defs, strict) == Norm(depth, b, schema, defs, strict)
    decreases depth, 1
  {
    hide Resolve, ShapeOf, NormFields, NormItems, Coerce, SameFields, SameItems, Norm, Same;
    SameShapes(depth, a, b, schema, defs, strict);
    if depth > 0 && Resolve(schema, defs).Some? {
      var s := Resolve(schema, defs).value;
      SameStep(depth, a, b, schema, defs, strict);
      NormStep(depth, a, schema, defs, strict);
      NormStep(depth, b, schema, defs, strict);
      match ShapeOf(a, s, defs)
      case Refused =>
      case Branch(branch) => SameNorm(depth - 1, a, b, branch, defs, strict);
      case Object => SameFieldsNorm(depth, a.fields, b.fields, s, defs, strict);
      case List(items) => SameItemsNorm(depth, a.items, b.items, items, defs, strict);
      case Scalar => SameCoerces(a, b, Get(s, "type"));
    }
  }

  lemma {:induction false} SameItemsNorm(depth: nat, a: seq<Value>, b: seq<Value>, schema: Value, defs: Defs,
                                         strict: bool)
    requires depth > 0 && SameItems(depth, a, b, schema, defs, strict)
    ensures NormItems(depth, a, schema, defs, strict) == NormItems(depth, b, schema, defs, strict)
    decreases depth, 0
  {
    hide Norm, NormItems, Same;
    forall k | 0 <= k < |a|
      ensures Norm(depth - 1, a[k], schema, defs, strict) == Norm(depth - 1, b[k], schema, defs, strict)
    {
      SameNorm(depth - 1, a[k], b[k], schema, defs, strict);
    }
    ItemsAgree(depth, a, b, schema, defs, strict);
  }

  lemma {:induction false} ItemsAgree(depth: nat, a: seq<Value>, b: seq<Value>, schema: Value, defs: Defs, strict: bool)
    requires depth > 0 && |a| == |b|
    requires forall k :: 0 <= k < |a| ==>
      Norm(depth - 1, a[k], schema, defs, strict) == Norm(depth - 1, b[k], schema, defs, strict)
    ensures NormItems(depth, a, schema, defs, strict) == NormItems(depth, b, schema, defs, strict)
    decreases |a|
  {
    hide Norm, NormItems;
    if a == [] {
      assert b == [];
    } else {
      var n := |a| - 1;
      ItemsAgree(depth, a[..n], b[..n], schema, defs, strict);
      ItemsSnoc(depth, a, schema, defs, strict);
      ItemsSnoc(depth, b, schema, defs, strict);
    }
  }

  lemma ItemsSnoc(depth: nat, a: seq<Value>, schema: Value, defs: Defs, strict: bool)
    requires depth > 0 && a != []
    ensures var before, last :=
        NormItems(depth, a[..|a| - 1], schema, defs, strict), Norm(depth - 1, a[|a| - 1], schema, defs, strict);
      NormItems(depth, a, schema, defs, strict) ==
        if before.None? || last.None? then None else Some(before.value + [last.value])
  {
    hide Norm;
  }

  lemma {:induction false} SameFieldsNorm(depth: nat, a: Fields, b: Fields, schema: Fields,
                                          defs: Defs, strict: bool)
    requires depth > 0 && SameFields(depth, a, b, schema, defs, strict)
    ensures NormFields(depth, a, schema, defs, strict) == NormFields(depth, b, schema, defs, strict)
    decreases depth, 0
  {
    hide Norm, Resolve, NormFields, NormField, SameField;
    forall name
      ensures NormField(depth, a, schema, defs, strict, name) == NormField(depth, b, schema, defs, strict, name)
    {
      if name in Names(a, schema) + Names(b, schema) {
        SameFieldNorm(depth, a, b, schema, defs, strict, name);
      } else {
        AbsentField(depth, a, schema, defs, strict, name);
        AbsentField(depth, b, schema, defs, strict, name);
      }
    }
    FieldsAgree(depth, a, b, schema, defs, strict);
  }

  lemma AbsentField(depth: nat, a: Fields, schema: Fields, defs: Defs, strict: bool, name: string)
    requires depth > 0 && name !in Names(a, schema)
    ensures NormField(depth, a, schema, defs, strict, name) == Omitted
  {}

  lemma {:induction false} SameFieldNorm(depth: nat, a: Fields, b: Fields, schema: Fields,
                                         defs: Defs, strict: bool, name: string)
    requires depth > 0 && SameField(depth, a, b, schema, defs, strict, name)
    ensures NormField(depth, a, schema, defs, strict, name) == NormField(depth, b, schema, defs, strict, name)
    decreases depth, 0, 0
  {
    hide Norm, Resolve, Same, Effective;
    if name in Properties(schema) {
      var x, y := Effective(a, schema, defs, strict, name), Effective(b, schema, defs, strict, name);
      if x.Given? && y.Given? {
        SameNorm(depth - 1, x.v, y.v, Property(schema, name), defs, strict);
      }
    }
  }

  /** Objects whose members agree by name have one normal form. */
  lemma FieldsAgree(depth: nat, a: Fields, b: Fields, schema: Fields, defs: Defs, strict: bool)
    requires depth > 0
    requires forall name ::
      NormField(depth, a, schema, defs, strict, name) == NormField(depth, b, schema, defs, strict, name)
    ensures NormFields(depth, a, schema, defs, strict) == NormFields(depth, b, schema, defs, strict)
  {
    hide NormField, NormFields;
    FieldsExactly(depth, a, schema, defs, strict);
    FieldsExactly(depth, b, schema, defs, strict);
    var x, y := NormFields(depth, a, schema, defs, strict), NormFields(depth, b, schema, defs, strict);
    assert forall name ::
      Blocks(depth, a, schema, defs, strict, name) <==> Blocks(depth, b, schema, defs, strict, name);
    if x.Some? && y.Some? {
      assert x.value == y.value;
    }
  }

  /** This member refuses the whole object. */
  ghost predicate Blocks(depth: nat, a: Fields, schema: Fields, defs: Defs, strict: bool, name: string)
    requires depth > 0
  {
    NormField(depth, a, schema, defs, strict, name).Unkeyable?
  }

  /** The normal form of an object, member by member. */
  lemma FieldsExactly(depth: nat, a: Fields, schema: Fields, defs: Defs, strict: bool)
    requires depth > 0
    ensures var r := NormFields(depth, a, schema, defs, strict);
      && (r.None? <==> exists name :: Blocks(depth, a, schema, defs, strict, name))
      && (r.Some? ==> forall name :: name in r.value <==> NormField(depth, a, schema, defs, strict, name).Given?)
      && (r.Some? ==> forall name :: name in r.value ==>
           NormField(depth, a, schema, defs, strict, name) == Given(r.value[name]))
  {
    hide Effective, Norm, NormField;
    NamedOnly(depth, a, schema, defs, strict);
    if name :| Blocks(depth, a, schema, defs, strict, name) {
      assert name in Names(a, schema);
    } else {
      assert forall name :: !Blocks(depth, a, schema, defs, strict, name);
      assert forall name :: name in Names(a, schema) ==> !NormField(depth, a, schema, defs, strict, name).Unkeyable?
        by {
          forall name | name in Names(a, schema)
            ensures !NormField(depth, a, schema, defs, strict, name).Unkeyable?
          {
            assert !Blocks(depth, a, schema, defs, strict, name);
          }
        }
    }
  }

  lemma NamedOnly(depth: nat, a: Fields, schema: Fields, defs: Defs, strict: bool)
    requires depth > 0
    ensures forall name :: !NormField(depth, a, schema, defs, strict, name).Omitted? ==> name in Names(a, schema)
  {
    hide Effective, Norm;
  }

  // ---------------------------------------------------- and only of one call

  /** Normalizing never changes what kind of thing a value is. */
  predicate SameKind(a: Value, b: Value) { (a.Obj? <==> b.Obj?) && (a.Arr? <==> b.Arr?) && (a.Null? <==> b.Null?) }

  lemma SameKindSameShape(a: Value, b: Value, schema: Fields, defs: Defs)
    requires SameKind(a, b)
    ensures ShapeOf(a, schema, defs) == ShapeOf(b, schema, defs)
  {
    hide Concrete;
  }

  lemma {:induction false} NormKind(depth: nat, a: Value, schema: Value, defs: Defs, strict: bool)
    requires Norm(depth, a, schema, defs, strict).Some?
    ensures SameKind(a, Norm(depth, a, schema, defs, strict).value)
    decreases depth
  {
    hide Resolve, ShapeOf, NormFields, NormItems, Norm;
    NormEnds(depth, a, schema, defs, strict);
    NormStep(depth, a, schema, defs, strict);
    var s := Resolve(schema, defs).value;
    if ShapeOf(a, s, defs).Branch? {
      NormKind(depth - 1, a, ShapeOf(a, s, defs).schema, defs, strict);
    } else if ShapeOf(a, s, defs).Scalar? {
      CoerceKind(a, Get(s, "type"));
    }
  }

  lemma CoerceKind(a: Value, declared: Value)
    ensures Coerce(a, declared).Some? ==> SameKind(a, Coerce(a, declared).value)
  {
    hide FromInt;
  }

  /** Equal normal forms only come from spellings of one call: normalizing
      merges nothing else. */
  lemma {:induction false} NormsSame(depth: nat, a: Value, b: Value, schema: Value, defs: Defs, strict: bool)
    requires Norm(depth, a, schema, defs, strict).Some?
    requires Norm(depth, a, schema, defs, strict) == Norm(depth, b, schema, defs, strict)
    ensures Same(depth, a, b, schema, defs, strict)
    decreases depth, 1
  {
    hide Resolve, ShapeOf, NormFields, NormItems, Coerce, SameFields, SameItems, SameScalar, Norm, Same;
    NormEnds(depth, a, schema, defs, strict);
    var s := Resolve(schema, defs).value;
    NormKind(depth, a, schema, defs, strict);
    NormKind(depth, b, schema, defs, strict);
    SameKindSameShape(a, b, s, defs);
    NormStep(depth, a, schema, defs, strict);
    NormStep(depth, b, schema, defs, strict);
    SameStep(depth, a, b, schema, defs, strict);
    match ShapeOf(a, s, defs)
    case Refused =>
    case Branch(branch) => NormsSame(depth - 1, a, b, branch, defs, strict);
    case Object => FieldsSame(depth, a.fields, b.fields, s, defs, strict);
    case List(items) => ItemsSame(depth, a.items, b.items, items, defs, strict);
    case Scalar => SameCoerces(a, b, Get(s, "type"));
  }

  lemma {:induction false} ItemsSame(depth: nat, a: seq<Value>, b: seq<Value>, schema: Value, defs: Defs, strict: bool)
    requires depth > 0 && NormItems(depth, a, schema, defs, strict).Some?
    requires NormItems(depth, a, schema, defs, strict) == NormItems(depth, b, schema, defs, strict)
    ensures SameItems(depth, a, b, schema, defs, strict)
    decreases depth, 0
  {
    hide Norm, NormItems, Same;
    ItemsMatch(depth, a, b, schema, defs, strict);
    forall k | 0 <= k < |a|
      ensures Same(depth - 1, a[k], b[k], schema, defs, strict)
    {
      NormsSame(depth - 1, a[k], b[k], schema, defs, strict);
    }
  }

  lemma ItemsMatch(depth: nat, a: seq<Value>, b: seq<Value>, schema: Value, defs: Defs, strict: bool)
    requires depth > 0 && NormItems(depth, a, schema, defs, strict).Some?
    requires NormItems(depth, a, schema, defs, strict) == NormItems(depth, b, schema, defs, strict)
    ensures |a| == |b| && forall k :: 0 <= k < |a| ==>
      Norm(depth - 1, a[k], schema, defs, strict).Some? &&
      Norm(depth - 1, a[k], schema, defs, strict) == Norm(depth - 1, b[k], schema, defs, strict)
  {
    hide Norm, NormItems;
    var r := NormItems(depth, a, schema, defs, strict).value;
    forall k | 0 <= k < |a|
      ensures Norm(depth - 1, a[k], schema, defs, strict) == Some(r[k]) == Norm(depth - 1, b[k], schema, defs, strict)
    {}
  }

  lemma {:induction false} FieldsSame(depth: nat, a: Fields, b: Fields, schema: Fields,
                                      defs: Defs, strict: bool)
    requires depth > 0 && NormFields(depth, a, schema, defs, strict).Some?
    requires NormFields(depth, a, schema, defs, strict) == NormFields(depth, b, schema, defs, strict)
    ensures SameFields(depth, a, b, schema, defs, strict)
    decreases depth, 0
  {
    hide Norm, Resolve, NormFields, NormField, SameField;
    FieldsExactly(depth, a, schema, defs, strict);
    FieldsExactly(depth, b, schema, defs, strict);
    forall name | name in Names(a, schema) + Names(b, schema)
      ensures SameField(depth, a, b, schema, defs, strict, name)
    {
      assert !Blocks(depth, a, schema, defs, strict, name) && !Blocks(depth, b, schema, defs, strict, name);
      FieldSame(depth, a, b, schema, defs, strict, name);
    }
  }

  lemma {:induction false} FieldSame(depth: nat, a: Fields, b: Fields, schema: Fields,
                                     defs: Defs, strict: bool, name: string)
    requires depth > 0 && name in Names(a, schema) + Names(b, schema)
    requires !NormField(depth, a, schema, defs, strict, name).Unkeyable?
    requires NormField(depth, a, schema, defs, strict, name) == NormField(depth, b, schema, defs, strict, name)
    ensures SameField(depth, a, b, schema, defs, strict, name)
    decreases depth, 0, 0
  {
    hide Norm, Resolve, Same, Effective;
    if name in Properties(schema) {
      var x, y := Effective(a, schema, defs, strict, name), Effective(b, schema, defs, strict, name);
      if x.Given? && y.Given? {
        NormsSame(depth - 1, x.v, y.v, Property(schema, name), defs, strict);
      }
    }
  }

  /** Exactness: two keyable calls have one normal form if and only if they are
      spellings of one call. */
  lemma NormExactly(depth: nat, a: Value, b: Value, schema: Value, defs: Defs, strict: bool)
    requires Norm(depth, a, schema, defs, strict).Some? && Norm(depth, b, schema, defs, strict).Some?
    ensures Norm(depth, a, schema, defs, strict) == Norm(depth, b, schema, defs, strict) <==>
            Same(depth, a, b, schema, defs, strict)
  {
    hide Norm, Same;
    if Same(depth, a, b, schema, defs, strict) {
      SameNorm(depth, a, b, schema, defs, strict);
    }
    if Norm(depth, a, schema, defs, strict) == Norm(depth, b, schema, defs, strict) {
      NormsSame(depth, a, b, schema, defs, strict);
    }
  }

  // ---------------------------------------------------- idempotence

  /** The normal form of a call is a spelling of it that normalizes to itself. */
  lemma {:induction false} NormIdempotent(depth: nat, a: Value, schema: Value, defs: Defs, strict: bool)
    requires Norm(depth, a, schema, defs, strict).Some?
    ensures var v := Norm(depth, a, schema, defs, strict).value;
      Norm(depth, v, schema, defs, strict) == Some(v)
    decreases depth, 1
  {
    hide Resolve, ShapeOf, NormFields, NormItems, Coerce, Norm;
    NormEnds(depth, a, schema, defs, strict);
    var s := Resolve(schema, defs).value;
    var v := Norm(depth, a, schema, defs, strict).value;
    NormKind(depth, a, schema, defs, strict);
    SameKindSameShape(a, v, s, defs);
    NormStep(depth, a, schema, defs, strict);
    NormStep(depth, v, schema, defs, strict);
    match ShapeOf(a, s, defs)
    case Refused =>
    case Branch(branch) => NormIdempotent(depth - 1, a, branch, defs, strict);
    case Object => FieldsIdempotent(depth, a.fields, s, defs, strict);
    case List(items) => ItemsIdempotent(depth, a.items, items, defs, strict);
    case Scalar => CoerceIdempotent(a, Get(s, "type"));
  }

  lemma CoerceIdempotent(a: Value, declared: Value)
    requires Coerce(a, declared).Some?
    ensures Coerce(Coerce(a, declared).value, declared) == Coerce(a, declared)
  {
    hide FromInt, FitsDouble;
    if a.Float? && Number(a).Some? && Integral(Number(a).value) {
      ZeroFits();
      FromIntegral(Number(a).value.Floor);
    }
  }

  lemma ZeroFits()
    ensures FitsDouble(0)
  {}

  lemma {:induction false} ItemsIdempotent(depth: nat, a: seq<Value>, schema: Value, defs: Defs, strict: bool)
    requires depth > 0 && NormItems(depth, a, schema, defs, strict).Some?
    ensures var r := NormItems(depth, a, schema, defs, strict).value;
      NormItems(depth, r, schema, defs, strict) == Some(r)
    decreases depth, 0, |a|
  {
    hide Norm;
    if a != [] {
      var n := |a| - 1;
      var r := NormItems(depth, a, schema, defs, strict).value;
      ItemsIdempotent(depth, a[..n], schema, defs, strict);
      NormIdempotent(depth - 1, a[n], schema, defs, strict);
      assert r[..n] == NormItems(depth, a[..n], schema, defs, strict).value;
      assert r == r[..n] + [r[n]];
    }
  }

  lemma {:induction false} FieldsIdempotent(depth: nat, a: Fields, schema: Fields, defs: Defs, strict: bool)
    requires depth > 0 && NormFields(depth, a, schema, defs, strict).Some?
    ensures var m := NormFields(depth, a, schema, defs, strict).value;
      NormFields(depth, m, schema, defs, strict) == Some(m)
    decreases depth, 0
  {
    hide Norm, Resolve, NormFields, NormField;
    FieldsExactly(depth, a, schema, defs, strict);
    var m := NormFields(depth, a, schema, defs, strict).value;
    forall name
      ensures NormField(depth, m, schema, defs, strict, name) == NormField(depth, a, schema, defs, strict, name)
      ensures !NormField(depth, a, schema, defs, strict, name).Unkeyable?
    {
      assert !Blocks(depth, a, schema, defs, strict, name);
      FieldIdempotent(depth, a, m, schema, defs, strict, name);
    }
    IsNormalForm(depth, m, schema, defs, strict, m);
  }

  lemma {:induction false} FieldIdempotent(depth: nat, a: Fields, m: Fields, schema: Fields,
                                           defs: Defs, strict: bool, name: string)
    requires depth > 0 && !NormField(depth, a, schema, defs, strict, name).Unkeyable?
    requires name in m <==> NormField(depth, a, schema, defs, strict, name).Given?
    requires name in m ==> NormField(depth, a, schema, defs, strict, name) == Given(m[name])
    ensures NormField(depth, m, schema, defs, strict, name) == NormField(depth, a, schema, defs, strict, name)
    decreases depth, 0, 0
  {
    hide Norm, Resolve;
    if name in Properties(schema) && Effective(a, schema, defs, strict, name).Given? {
      NormIdempotent(depth - 1, Effective(a, schema, defs, strict, name).v, Property(schema, name), defs, strict);
    }
  }

  // ---------------------------------------------------- recursion depth

  /** A result never depends on how deep the interpreter would let it go. */
  lemma {:induction false} DepthIrrelevant(depth: nat, deeper: nat, a: Value, schema: Value, defs: Defs, strict: bool)
    requires depth <= deeper && Norm(depth, a, schema, defs, strict).Some?
    ensures Norm(deeper, a, schema, defs, strict) == Norm(depth, a, schema, defs, strict)
    decreases depth, 1
  {
    hide Resolve, ShapeOf, NormFields, NormItems, Coerce, Norm;
    NormEnds(depth, a, schema, defs, strict);
    var s := Resolve(schema, defs).value;
    NormStep(depth, a, schema, defs, strict);
    NormStep(deeper, a, schema, defs, strict);
    match ShapeOf(a, s, defs)
    case Refused =>
    case Branch(branch) => DepthIrrelevant(depth - 1, deeper - 1, a, branch, defs, strict);
    case Object => FieldsDeeper(depth, deeper, a.fields, s, defs, strict);
    case List(items) => ItemsDeeper(depth, deeper, a.items, items, defs, strict);
    case Scalar =>
  }

  lemma {:induction false} ItemsDeeper(depth: nat, deeper: nat, a: seq<Value>, schema: Value, defs: Defs, strict: bool)
    requires 0 < depth <= deeper && NormItems(depth, a, schema, defs, strict).Some?
    ensures NormItems(deeper, a, schema, defs, strict) == NormItems(depth, a, schema, defs, strict)
    decreases depth, 0, |a|
  {
    hide Norm;
    if a != [] {
      var n := |a| - 1;
      ItemsDeeper(depth, deeper, a[..n], schema, defs, strict);
      DepthIrrelevant(depth - 1, deeper - 1, a[n], schema, defs, strict);
    }
  }

  lemma {:induction false} FieldsDeeper(depth: nat, deeper: nat, a: Fields, schema: Fields,
                                        defs: Defs, strict: bool)
    requires 0 < depth <= deeper && NormFields(depth, a, schema, defs, strict).Some?
    ensures NormFields(deeper, a, schema, defs, strict) == NormFields(depth, a, schema, defs, strict)
    decreases depth, 0
  {
    hide Norm, Resolve, NormFields, NormField;
    FieldsExactly(depth, a, schema, defs, strict);
    var m := NormFields(depth, a, schema, defs, strict).value;
    forall name
      ensures NormField(deeper, a, schema, defs, strict, name) == NormField(depth, a, schema, defs, strict, name)
      ensures !NormField(depth, a, schema, defs, strict, name).Unkeyable?
    {
      assert !Blocks(depth, a, schema, defs, strict, name);
      FieldDeeper(depth, deeper, a, schema, defs, strict, name);
    }
    IsNormalForm(deeper, a, schema, defs, strict, m);
  }

  lemma {:induction false} FieldDeeper(depth: nat, deeper: nat, a: Fields, schema: Fields,
                                       defs: Defs, strict: bool, name: string)
    requires 0 < depth <= deeper && !NormField(depth, a, schema, defs, strict, name).Unkeyable?
    ensures NormField(deeper, a, schema, defs, strict, name) == NormField(depth, a, schema, defs, strict, name)
    decreases depth, 0, 0
  {
    hide Norm, Resolve, Effective;
    if name in Properties(schema) && Effective(a, schema, defs, strict, name).Given? {
      DepthIrrelevant(depth - 1, deeper - 1, Effective(a, schema, defs, strict, name).v, Property(schema, name), defs,
                      strict);
    }
  }

  // ---------------------------------------------------- whole calls

  /** Two spellings of one call against one tool schema. */
  ghost predicate SameCall(depth: nat, a: Fields, b: Fields, schema: Value, strict: bool) {
    var defs := DefsOf(AsMap(schema));
    depth > 0 && Resolve(schema, defs).Some? && SameFields(depth, a, b, Resolve(schema, defs).value, defs, strict)
  }

  /** Spelling-invariant and exact: spellings of one call are both refused or
      get one canonical value, and keyable calls share a canonical value only
      if they are spellings of one call. */
  lemma CallExactly(depth: nat, a: Fields, b: Fields, schema: Value, strict: bool)
    ensures SameCall(depth, a, b, schema, strict) ==> Args(depth, a, schema, strict) == Args(depth, b, schema, strict)
    ensures Args(depth, a, schema, strict).Some? && Args(depth, a, schema, strict) == Args(depth, b, schema, strict)
            ==> SameCall(depth, a, b, schema, strict)
  {
    hide Resolve, NormFields, SameFields;
    var defs := DefsOf(AsMap(schema));
    if depth > 0 && Resolve(schema, defs).Some? {
      var s := Resolve(schema, defs).value;
      if SameFields(depth, a, b, s, defs, strict) {
        SameFieldsNorm(depth, a, b, s, defs, strict);
      }
      if NormFields(depth, a, s, defs, strict).Some?
         && NormFields(depth, a, s, defs, strict) == NormFields(depth, b, s, defs, strict) {
        FieldsSame(depth, a, b, s, defs, strict);
      }
    }
  }

  lemma FieldElsewhere(depth: nat, x: Fields, y: Fields, schema: Fields, defs: Defs,
                       strict: bool, name: string)
    requires depth > 0 && (name in x <==> name in y) && (name in x ==> x[name] == y[name])
    ensures NormField(depth, x, schema, defs, strict, name) == NormField(depth, y, schema, defs, strict, name)
  {
    hide Norm, Resolve;
  }

  /** Spelling out a discoverable default changes neither the canonical value
      nor a refusal. */
  lemma DefaultSpelled(depth: nat, raw: Fields, schema: Value, strict: bool, name: string, v: Value)
    requires var defs := DefsOf(AsMap(schema));
      Resolve(schema, defs).Some? && name !in raw
      && Effective(raw, Resolve(schema, defs).value, defs, strict, name) == Given(v)
    ensures Args(depth, raw, schema, strict) == Args(depth, raw[name := v], schema, strict)
  {
    hide Resolve, NormFields, NormField, Listable, Effective;
    var defs := DefsOf(AsMap(schema));
    if depth > 0 {
      var s := Resolve(schema, defs).value;
      forall other
        ensures
          NormField(depth, raw, s, defs, strict, other) == NormField(depth, raw[name := v], s, defs, strict, other)
      {
        if other == name {
          SameGiven(depth, raw, s, defs, strict, name, v);
        } else {
          FieldElsewhere(depth, raw, raw[name := v], s, defs, strict, other);
        }
      }
      FieldsAgree(depth, raw, raw[name := v], s, defs, strict);
    }
  }

  lemma SameGiven(depth: nat, raw: Fields, schema: Fields, defs: Defs, strict: bool, name: string, v: Value)
    requires depth > 0 && name !in raw && Effective(raw, schema, defs, strict, name) == Given(v)
    ensures
      NormField(depth, raw, schema, defs, strict, name) == NormField(depth, raw[name := v], schema, defs, strict, name)
  {
    hide Norm;
    assert name in Properties(schema);
    hide Resolve;
    assert Effective(raw[name := v], schema, defs, strict, name) == Given(v);
  }

  lemma CallIdempotent(depth: nat, a: Fields, schema: Value, strict: bool)
    requires Args(depth, a, schema, strict).Some?
    ensures var v := Args(depth, a, schema, strict).value; Args(depth, v, schema, strict) == Some(v)
  {
    hide Resolve, NormFields;
    var defs := DefsOf(AsMap(schema));
    FieldsIdempotent(depth, a, Resolve(schema, defs).value, defs, strict);
  }

  // ---------------------------------------------------- the gate in front of a tool

  datatype ToolOutcome = PassedThrough | ToolError | Executed | TransportError

  /** `_gate_call`: `dumps` is the canonical JSON of the normal form, `gated`
      whether the tool is in the gated set, `readable` whether its schema could
      be read. The body runs on an ungated tool, or behind the fresh-proceed
      door; every refusal to key comes before anything is declared. */
  method GateCall(h: Digest, gated: bool, readable: bool, depth: nat, raw: Fields, schema: Value, strict: bool,
                  dumps: Fields -> Bytes, scope: string, run: string, name: string, e: Reporting.Exchange)
    returns (o: ToolOutcome, declared: Option<string>)
    ensures o == PassedThrough <==> !gated
    ensures declared.Some? <==> gated && readable && Args(depth, raw, schema, strict).Some?
    ensures declared.Some? ==>
      declared.value ==
        scope + ":" + run + ":" + name + ":" + h(dumps(Args(depth, raw, schema, strict).value))
    ensures gated && WithheldCall(raw, schema, strict) ==> declared.None? && o == ToolError
    ensures o == TransportError <==> declared.Some? && e.NoAnswer?
    ensures o == Executed <==> declared.Some? && e.Exchange? && e.response.Reply? && e.response.terminal == "ACHIEVED"
  {
    hide Args, D.Decide, D.FreshProceed, WithheldCall;
    ArgsMembers(depth, raw, schema, strict);
    if !gated {
      return PassedThrough, None;
    }
    if !readable {
      return ToolError, None;
    }
    var args := Tier2Args(depth, raw, schema, strict);
    if args.None? {
      return ToolError, None;
    }
    var key := Reporting.DeriveKey(h, scope, run, name, dumps(args.value));
    if e.NoAnswer? {
      return TransportError, Some(key);
    }
    var res := D.Declare(e.response, e.consult);
    D.OnlyReplyProceeds(e.response, e.consult);
    if !D.FreshProceed(res) {
      return ToolError, Some(key);
    }
    return Executed, Some(key);
  }
}
