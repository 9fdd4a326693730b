// When the tier-2 recursion ends by itself: a schema whose defaults and single
// branches descend decides every call at some depth, refusals included.

module Tier2Depth {
  import opened Text
  import opened Tier2

  /** Normalizing a flat value visits no other value. */
  predicate Flat(v: Value) { !v.Obj? && (v.Arr? ==> v.items == []) }

  /** Ranks on schema nodes: `defaults` never rises along a property, an item
      or a branch and falls wherever a default that is not flat is filled in;
      `branches` falls along single branches. */
  datatype Ranks = Ranks(nodes: set<Value>, defaults: Value -> nat, branches: Value -> nat)

  ghost predicate Ranked(r: Ranks, defs: Defs) {
    forall s :: s in r.nodes && Resolve(s, defs).Some? ==> NodeRanked(r, s, Resolve(s, defs).value, defs)
  }

  ghost predicate NodeRanked(r: Ranks, s: Value, schema: Fields, defs: Defs) {
    && (forall name :: name in Properties(schema) ==> PropertyRanked(r, s, schema, defs, name))
    && (Get(schema, "items").Obj? ==> Below(r, s, Get(schema, "items")))
    && (SingleBranch(schema, defs).Some? ==>
         var b := SingleBranch(schema, defs).value; Below(r, s, b) && r.branches(b) < r.branches(s))
  }

  predicate Below(r: Ranks, s: Value, t: Value) { t in r.nodes && r.defaults(t) <= r.defaults(s) }

  predicate PropertyRanked(r: Ranks, s: Value, schema: Fields, defs: Defs, name: string)
    requires name in Properties(schema)
  {
    var prop, filled := Property(schema, name), Effective(map[], schema, defs, true, name);
    Below(r, s, prop) && (filled.Given? && !Flat(filled.v) ==> r.defaults(prop) < r.defaults(s))
  }

  function SingleBranch(schema: Fields, defs: Defs): Option<Value> {
    var branches := Branches(schema);
    if "type" in schema || !branches.Arr? then None
    else
      var concrete := Concrete(branches.items, defs);
      if concrete.Some? && |concrete.value| == 1 then Some(concrete.value[0]) else None
  }

  /** From `d` on, the depth makes no difference, whatever the result. */
  ghost predicate Settled(d: nat, v: Value, schema: Value, defs: Defs, strict: bool) {
    forall deeper: nat :: deeper >= d ==> Norm(deeper, v, schema, defs, strict) == Norm(d, v, schema, defs, strict)
  }

  lemma BranchIsSingle(v: Value, schema: Fields, defs: Defs)
    ensures ShapeOf(v, schema, defs).Branch? ==> SingleBranch(schema, defs) == Some(ShapeOf(v, schema, defs).schema)
    ensures ShapeOf(v, schema, defs).List? ==>
      ShapeOf(v, schema, defs).items == Get(schema, "items") && Get(schema, "items").Obj?
  {
    hide Concrete;
  }

  lemma Unresolved(v: Value, schema: Value, defs: Defs, strict: bool)
    requires Resolve(schema, defs).None?
    ensures Settled(0, v, schema, defs, strict)
  {
    hide Norm, Resolve;
    forall deeper: nat
      ensures Norm(deeper, v, schema, defs, strict) == Norm(0, v, schema, defs, strict)
    {
      NormEnds(deeper, v, schema, defs, strict);
      NormEnds(0, v, schema, defs, strict);
    }
  }

  /** One level above a depth at which everything below is settled. */
  lemma OneLevel(d: nat, v: Value, schema: Value, defs: Defs, strict: bool)
    requires d > 0 && Resolve(schema, defs).Some?
    requires var s := Resolve(schema, defs).value;
      match ShapeOf(v, s, defs)
      case Branch(b) => Settled(d - 1, v, b, defs, strict)
      case Object => v.Obj? && FieldsSettled(d, v.fields, s, defs, strict)
      case List(items) => v.Arr? && ItemsSettled(d, v.items, items, defs, strict)
      case _ => true
    ensures Settled(d, v, schema, defs, strict)
  {
    hide Norm, Resolve, ShapeOf, NormFields, NormItems, Coerce;
    NormStep(d, v, schema, defs, strict);
    forall deeper: nat | deeper >= d
      ensures Norm(deeper, v, schema, defs, strict) == Norm(d, v, schema, defs, strict)
    {
      NormStep(deeper, v, schema, defs, strict);
    }
  }

  ghost predicate ItemsSettled(d: nat, items: seq<Value>, schema: Value, defs: Defs, strict: bool)
    requires d > 0
  {
    forall deeper: nat :: deeper >= d ==>
      NormItems(deeper, items, schema, defs, strict) == NormItems(d, items, schema, defs, strict)
  }

  ghost predicate FieldsSettled(d: nat, fields: Fields, schema: Fields, defs: Defs, strict: bool)
    requires d > 0
  {
    forall deeper: nat :: deeper >= d ==>
      NormFields(deeper, fields, schema, defs, strict) == NormFields(d, fields, schema, defs, strict)
  }

  ghost predicate FieldSettled(d: nat, fields: Fields, schema: Fields, defs: Defs, strict: bool,
                               name: string)
    requires d > 0
  {
    forall deeper: nat :: deeper >= d ==>
      NormField(deeper, fields, schema, defs, strict, name) == NormField(d, fields, schema, defs, strict, name)
  }

  function Max(a: nat, b: nat): nat { if a < b then b else a }

  /** A flat value only descends through single branches. */
  lemma {:induction false} FlatSettles(r: Ranks, v: Value, schema: Value, defs: Defs, strict: bool) returns (d: nat)
    requires Ranked(r, defs) && schema in r.nodes && Flat(v)
    ensures Settled(d, v, schema, defs, strict)
    decreases r.branches(schema)
  {
    hide Norm, Resolve, ShapeOf, NormFields, NormItems, Settled, Coerce, SingleBranch, PropertyRanked;
    d := 1;
    if Resolve(schema, defs).None? {
      Unresolved(v, schema, defs, strict);
      return 0;
    }
    var s := Resolve(schema, defs).value;
    assert NodeRanked(r, schema, s, defs);
    BranchIsSingle(v, s, defs);
    ObjectShape(v, s, defs);
    ListShape(v, s, defs);
    match ShapeOf(v, s, defs) {
      case Branch(b) =>
        var below := FlatSettles(r, v, b, defs, strict);
        d := below + 1;
      case List(items) => NoItems(items, defs, strict);
      case _ =>
    }
    OneLevel(d, v, schema, defs, strict);
  }

  lemma NoItems(schema: Value, defs: Defs, strict: bool)
    ensures ItemsSettled(1, [], schema, defs, strict)
  {
    hide Norm;
  }

  /** A rank on schema nodes makes some depth enough for any given value: beyond
      it neither a result nor a refusal depends on the depth. */
  lemma {:induction false} Settles(r: Ranks, v: Value, schema: Value, defs: Defs, strict: bool) returns (d: nat)
    requires Ranked(r, defs) && schema in r.nodes
    ensures Settled(d, v, schema, defs, strict)
    decreases r.defaults(schema), v, r.branches(schema), 1, 0
  {
    hide Norm, Resolve, ShapeOf, NormFields, NormItems, Settled, Coerce, SingleBranch, PropertyRanked, ItemsSettled,
         FieldsSettled;
    d := 1;
    if Resolve(schema, defs).None? {
      Unresolved(v, schema, defs, strict);
      return 0;
    }
    var s := Resolve(schema, defs).value;
    assert NodeRanked(r, schema, s, defs);
    BranchIsSingle(v, s, defs);
    ObjectShape(v, s, defs);
    ListShape(v, s, defs);
    match ShapeOf(v, s, defs) {
      case Branch(b) =>
        var below := Settles(r, v, b, defs, strict);
        d := below + 1;
      case Object => d := FieldsSettle(r, v, schema, s, defs, strict);
      case List(items) =>
        d := ItemsSettle(r, v, schema, items, defs, strict, |v.items|);
        assert v.items[..|v.items|] == v.items;
      case _ =>
    }
    OneLevel(d, v, schema, defs, strict);
  }

  lemma {:induction false} ItemsSettle(r: Ranks, v: Value, schema: Value, items: Value, defs: Defs, strict: bool,
                                       n: nat)
    returns (d: nat)
    requires Ranked(r, defs) && v.Arr? && n <= |v.items| && Below(r, schema, items)
    ensures d > 0 && ItemsSettled(d, v.items[..n], items, defs, strict)
    decreases r.defaults(schema), v, r.branches(schema), 0, n
  {
    hide Norm, NormItems, Ranked;
    if n == 0 {
      NoItems(items, defs, strict);
      return 1;
    }
    var before := ItemsSettle(r, v, schema, items, defs, strict, n - 1);
    var last := Settles(r, v.items[n - 1], items, defs, strict);
    d := Max(before, last + 1);
    assert v.items[..n][..n - 1] == v.items[..n - 1];
    forall deeper: nat | deeper >= d
      ensures NormItems(deeper, v.items[..n], items, defs, strict) == NormItems(d, v.items[..n], items, defs, strict)
    {
      ItemsSnoc(deeper, v.items[..n], items, defs, strict);
      ItemsSnoc(d, v.items[..n], items, defs, strict);
      assert Norm(deeper - 1, v.items[n - 1], items, defs, strict) == Norm(last, v.items[n - 1], items, defs, strict);
      assert Norm(d - 1, v.items[n - 1], items, defs, strict) == Norm(last, v.items[n - 1], items, defs, strict);
    }
  }

  lemma {:induction false} FieldsSettle(r: Ranks, v: Value, schema: Value, s: Fields, defs: Defs, strict: bool)
    returns (d: nat)
    requires Ranked(r, defs) && v.Obj? && NodeRanked(r, schema, s, defs)
    ensures d > 0 && FieldsSettled(d, v.fields, s, defs, strict)
    decreases r.defaults(schema), v, r.branches(schema), 0, |Properties(s)| + 2
  {
    hide Norm, NormFields, NormField, Ranked, NodeRanked, Properties;
    d := NamesSettle(r, v, schema, s, defs, strict, Properties(s).Keys);
    forall deeper: nat | deeper >= d
      ensures NormFields(deeper, v.fields, s, defs, strict) == NormFields(d, v.fields, s, defs, strict)
    {
      forall name
        ensures NormField(deeper, v.fields, s, defs, strict, name) == NormField(d, v.fields, s, defs, strict, name)
      {
        if name in Properties(s) {
          assert FieldSettled(d, v.fields, s, defs, strict, name);
        } else {
          UndeclaredAsSpelled(deeper, v.fields, s, defs, strict);
          UndeclaredAsSpelled(d, v.fields, s, defs, strict);
        }
      }
      DepthsAgree(deeper, d, v.fields, s, defs, strict);
    }
  }

  /** Depths at which the members agree by name give one normal form. */
  lemma DepthsAgree(d: nat, e: nat, a: Fields, schema: Fields, defs: Defs, strict: bool)
    requires d > 0 && e > 0
    requires forall name :: NormField(d, a, schema, defs, strict, name) == NormField(e, a, schema, defs, strict, name)
    ensures NormFields(d, a, schema, defs, strict) == NormFields(e, a, schema, defs, strict)
  {
    hide NormField, NormFields;
    FieldsExactly(d, a, schema, defs, strict);
    FieldsExactly(e, a, schema, defs, strict);
    var x, y := NormFields(d, a, schema, defs, strict), NormFields(e, a, schema, defs, strict);
    assert forall name :: Blocks(d, a, schema, defs, strict, name) <==> Blocks(e, a, schema, defs, strict, name);
    if x.Some? && y.Some? {
      assert x.value == y.value;
    }
  }

  lemma {:induction false} NamesSettle(r: Ranks, v: Value, schema: Value, s: Fields, defs: Defs, strict: bool,
                                       names: set<string>) returns (d: nat)
    requires Ranked(r, defs) && v.Obj? && NodeRanked(r, schema, s, defs) && names <= Properties(s).Keys
    ensures d > 0 && forall name :: name in names ==> FieldSettled(d, v.fields, s, defs, strict, name)
    decreases r.defaults(schema), v, r.branches(schema), 0, |names| + 1
  {
    hide Norm, NormField, Ranked, NodeRanked, FieldSettled, Properties;
    if names == {} {
      return 1;
    }
    var name :| name in names;
    var others := NamesSettle(r, v, schema, s, defs, strict, names - {name});
    var one := NameSettles(r, v, schema, s, defs, strict, name);
    d := Max(others, one);
    forall x | x in names
      ensures FieldSettled(d, v.fields, s, defs, strict, x)
    {
      StillSettled(if x == name then one else others, d, v.fields, s, defs, strict, x);
    }
  }

  lemma StillSettled(d: nat, e: nat, a: Fields, schema: Fields, defs: Defs, strict: bool, name: string)
    requires 0 < d <= e && FieldSettled(d, a, schema, defs, strict, name)
    ensures FieldSettled(e, a, schema, defs, strict, name)
  {
    hide NormField;
  }

  lemma {:induction false} NameSettles(r: Ranks, v: Value, schema: Value, s: Fields, defs: Defs, strict: bool,
                                       name: string) returns (d: nat)
    requires Ranked(r, defs) && v.Obj? && NodeRanked(r, schema, s, defs) && name in Properties(s)
    ensures d > 0 && FieldSettled(d, v.fields, s, defs, strict, name)
    decreases r.defaults(schema), v, r.branches(schema), 0, 0
  {
    hide Norm, Resolve, Ranked, Effective, SingleBranch, Properties, Property;
    assert PropertyRanked(r, schema, s, defs, name);
    var given := Effective(v.fields, s, defs, strict, name);
    var below := 0;
    if given.Given? {
      Spelled(v.fields, s, defs, strict, name);
      if Flat(given.v) {
        below := FlatSettles(r, given.v, Property(s, name), defs, strict);
      } else {
        below := Settles(r, given.v, Property(s, name), defs, strict);
      }
    }
    d := below + 1;
    forall deeper: nat | deeper >= d
      ensures NormField(deeper, v.fields, s, defs, strict, name) == NormField(d, v.fields, s, defs, strict, name)
    {
      if given.Given? {
        assert Norm(deeper - 1, given.v, Property(s, name), defs, strict) ==
          Norm(below, given.v, Property(s, name), defs, strict);
      }
    }
  }

  /** What a property is given is spelled in the call, or its default. */
  lemma Spelled(fields: Fields, schema: Fields, defs: Defs, strict: bool, name: string)
    requires Effective(fields, schema, defs, strict, name).Given?
    ensures var v := Effective(fields, schema, defs, strict, name).v;
      if name in fields then v == fields[name] else Effective(map[], schema, defs, true, name) == Given(v)
  {
    hide Resolve;
  }

  /** A whole call against a ranked schema is decided the same way at every
      depth from some depth on. */
  lemma CallSettles(r: Ranks, raw: Fields, schema: Value, strict: bool) returns (d: nat)
    requires Ranked(r, DefsOf(AsMap(schema))) && schema in r.nodes
    ensures forall deeper: nat :: deeper >= d ==> Args(deeper, raw, schema, strict) == Args(d, raw, schema, strict)
  {
    hide Resolve, NormFields, Listable, Ranked, NodeRanked;
    var defs := DefsOf(AsMap(schema));
    if Resolve(schema, defs).None? {
      return 0;
    }
    assert NodeRanked(r, schema, Resolve(schema, defs).value, defs) by {
      RankedNode(r, schema, defs);
    }
    d := FieldsSettle(r, Obj(raw), schema, Resolve(schema, defs).value, defs, strict);
  }

  lemma RankedNode(r: Ranks, schema: Value, defs: Defs)
    requires Ranked(r, defs) && schema in r.nodes && Resolve(schema, defs).Some?
    ensures NodeRanked(r, schema, Resolve(schema, defs).value, defs)
  {
    hide NodeRanked, Resolve;
  }

  // ---------------------------------------------------- a recursive schema with a rank

  const NULLS := Obj(map["type" := Str("null")])
  const NODE := Obj(map["$ref" := Str("#/$defs/A")])
  const NEXT := Obj(map["anyOf" := Arr([NODE, NULLS]), "default" := Null])
  const LIST := map["type" := Str("object"), "properties" := Obj(map["next" := NEXT])]
  const LIST_DEFS: Defs := map["$defs" := map["A" := Obj(LIST)]]
  const LIST_RANKS := Ranks({NODE, NEXT}, (s: Value) => 0, (s: Value) => if s == NEXT then 1 else 0)

  /** An optional node inside a node, as a linked list is declared: recursion
      through a reference and a branch that shrinks the value is ranked. */
  lemma ListRanked()
    ensures Ranked(LIST_RANKS, LIST_DEFS)
  {
    hide Resolve, NodeRanked;
    ListResolves();
    NodeIsRanked();
    NextIsRanked();
  }

  lemma ListResolves()
    ensures Resolve(NODE, LIST_DEFS) == Some(LIST) && Resolve(NEXT, LIST_DEFS) == Some(NEXT.fields)
    ensures Resolve(NULLS, LIST_DEFS) == Some(NULLS.fields)
  {
    LoopParts();
    hide Split, Resolvable;
    assert Target("#/$defs/A", LIST_DEFS) == Some(LIST);
    hide Target;
    assert Merge(LIST, NODE.fields) == LIST;
    assert Follow(LIST, LIST_DEFS, {} + {"#/$defs/A"}) == Some(LIST);
    assert Follow(NODE.fields, LIST_DEFS, {}) == Some(LIST);
  }

  lemma NodeIsRanked()
    ensures NodeRanked(LIST_RANKS, NODE, LIST, LIST_DEFS)
  {
    hide Resolve, SingleBranch, PropertyRanked, Below;
    assert Properties(LIST).Keys == {"next"} && !Get(LIST, "items").Obj?;
    NextProperty();
    TypedNoBranch();
  }

  lemma NextProperty()
    ensures "next" in Properties(LIST) && PropertyRanked(LIST_RANKS, NODE, LIST, LIST_DEFS, "next")
  {
    hide Resolve, Effective;
    assert Property(LIST, "next") == NEXT;
    NullDefault();
  }

  lemma NullDefault()
    ensures Effective(map[], LIST, LIST_DEFS, true, "next") == Given(Null)
  {
    hide Resolve;
    assert Property(LIST, "next") == NEXT;
  }

  lemma TypedNoBranch()
    ensures SingleBranch(LIST, LIST_DEFS) == None
  {
    hide Concrete;
  }

  lemma NextIsRanked()
    ensures NodeRanked(LIST_RANKS, NEXT, NEXT.fields, LIST_DEFS)
  {
    hide Resolve, Effective, SingleBranch;
    assert Properties(NEXT.fields) == map[];
    NextBranch();
  }

  lemma NextBranch()
    ensures SingleBranch(NEXT.fields, LIST_DEFS) == Some(NODE) && NODE != NEXT
  {
    hide Resolve, Concrete;
    OneNode();
    assert Branches(NEXT.fields) == Arr([NODE, NULLS]);
    assert "$ref" !in NEXT.fields && "$ref" in NODE.fields;
  }

  lemma OneNode()
    ensures Concrete([NODE, NULLS], LIST_DEFS) == Some([NODE])
  {
    ListResolves();
    hide Resolve, Concrete;
    assert |"object"| != |"null"|;
    assert LIST["type"] == Str("object") && Get(LIST, "type") != Str("null");
    assert NULLS.fields["type"] == Str("null");
    ConcreteNone();
    ConcreteSnoc([], NODE, [], LIST_DEFS);
    assert [] + [NODE] == [NODE];
    ConcreteSnoc([NODE], NULLS, [NODE], LIST_DEFS);
    assert [NODE] + [] == [NODE] && [NODE] + [NULLS] == [NODE, NULLS];
  }

  lemma ConcreteNone()
    ensures Concrete([], LIST_DEFS) == Some([])
  {}

  lemma ConcreteSnoc(branches: seq<Value>, b: Value, before: seq<Value>, defs: Defs)
    requires Concrete(branches, defs) == Some(before) && b.Obj? && Resolve(b, defs).Some?
    ensures Concrete(branches + [b], defs) ==
            Some(before + (if Get(Resolve(b, defs).value, "type") != Str("null") then [b] else []))
  {
    hide Resolve;
    assert (branches + [b])[..|branches|] == branches;
  }

  // ---------------------------------------------------- without a rank

  const AGAIN := Obj(map["$ref" := Str("#/$defs/A"), "default" := Obj(map[])])
  const LOOPING := map["properties" := Obj(map["x" := AGAIN])]
  const LOOP_DEFS: Defs := map["$defs" := map["A" := Obj(LOOPING)]]

  /** A default that recurses through its reference is refused at every depth:
      only the interpreter's limit ends it. */
  lemma {:induction false} EndlessDefault(depth: nat, strict: bool)
    ensures Norm(depth, Obj(map[]), AGAIN, LOOP_DEFS, strict) == None
  {
    hide Norm, Resolve, NormFields, NormField;
    LoopResolves();
    var s := Resolve(AGAIN, LOOP_DEFS).value;
    if depth == 0 {
      NormEnds(depth, Obj(map[]), AGAIN, LOOP_DEFS, strict);
    } else {
      NormStep(depth, Obj(map[]), AGAIN, LOOP_DEFS, strict);
      EndlessDefault(depth - 1, strict);
      LoopField(depth, s, strict);
      OneBlocks(depth, map[], s, LOOP_DEFS, strict, "x");
    }
  }

  lemma LoopResolves()
    ensures Resolve(AGAIN, LOOP_DEFS) == Some(LOOPING["default" := Obj(map[])])
  {
    LoopReference();
    hide Split, Target, Resolvable;
    var target := LOOPING["default" := Obj(map[])];
    assert Merge(LOOPING, AGAIN.fields) == target;
    assert Follow(target, LOOP_DEFS, {} + {"#/$defs/A"}) == Some(target);
    assert Follow(AGAIN.fields, LOOP_DEFS, {}) == Some(target);
  }

  lemma LoopReference()
    ensures Target("#/$defs/A", LOOP_DEFS) == Some(LOOPING)
  {
    LoopParts();
    hide Split;
  }

  lemma LoopParts()
    ensures Split("#/$defs/A", '/') == ["#", "$defs", "A"]
  {
    hide Split, IndexOf;
    assert "#" + ['/'] + "$defs/A" == "#/$defs/A" && "$defs" + ['/'] + "A" == "$defs/A";
    SplitFirst("#", '/', "$defs/A");
    SplitFirst("$defs", '/', "A");
    SplitAbsent("A", '/');
    assert ["#"] + (["$defs"] + ["A"]) == ["#", "$defs", "A"];
  }

  lemma LoopField(depth: nat, schema: Fields, strict: bool)
    requires depth > 0 && schema == LOOPING["default" := Obj(map[])]
    requires Norm(depth - 1, Obj(map[]), AGAIN, LOOP_DEFS, strict) == None
    ensures NormField(depth, map[], schema, LOOP_DEFS, strict, "x").Unkeyable?
  {
    hide Norm, Resolve;
  }
}
