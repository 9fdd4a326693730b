// Equivalent forms of a declared number: which of them give one key.

module Tier2Numbers {
  import opened Text
  import opened Hashing
  import opened Doubles
  import opened Tier2
  import Reporting

  predicate NegZero(v: Value) { v == Float(NegativeZero) }

  /** Two spellings of one number. */
  predicate OneNumber(a: Value, b: Value) { Number(a).Some? && Number(a) == Number(b) }

  predicate Declares(schema: Value, defs: Defs, declared: string) {
    Resolve(schema, defs).Some? && Get(Resolve(schema, defs).value, "type") == Str(declared)
  }

  /** A number under a schema with a numeric type is only coerced. */
  lemma NumberCoerced(depth: nat, v: Value, schema: Value, defs: Defs, strict: bool, declared: string)
    requires depth > 0 && Number(v).Some? && Declares(schema, defs, declared) && declared in {"number", "integer"}
    ensures Norm(depth, v, schema, defs, strict) == Coerce(v, Str(declared))
  {
    hide Norm, Resolve, Coerce;
    ScalarShape(v, Resolve(schema, defs).value, defs);
    NormStep(depth, v, schema, defs, strict);
  }

  lemma ScalarShape(v: Value, schema: Fields, defs: Defs)
    requires Number(v).Some? && Get(schema, "type").Str?
    ensures ShapeOf(v, schema, defs).Scalar?
  {
    hide Concrete;
  }

  /** An integer that is also a float's value keeps that value. */
  lemma IntegerIsFloat(n: int, x: FiniteValue)
    requires n as real == x
    ensures FromInt(n) == Some(Finite(x))
  {
    hide FromInt, FitsDouble;
    FloorOfInt(n);
    FromIntegral(n);
  }

  lemma CoercedNumbers(a: Value, b: Value)
    requires OneNumber(a, b)
    ensures Coerce(a, Str("number")) == Coerce(b, Str("number")) <==> (NegZero(a) <==> NegZero(b))
    ensures Coerce(a, Str("integer")) == Coerce(b, Str("integer"))
  {
    hide FromInt, FitsDouble;
    ZeroFits();
    MixedForms(a, b);
    MixedForms(b, a);
  }

  /** An integer spelled as a float, as far as it can be. */
  lemma MixedForms(a: Value, b: Value)
    requires OneNumber(a, b)
    ensures a.Int? && b.Float? && b.f.Finite? ==> FromInt(a.n) == Some(b.f)
    ensures a.Int? && NegZero(b) ==> a.n == 0 && FromInt(a.n) == Some(Finite(0.0))
    ensures a.Int? && b.Float? ==> Number(b).value.Floor == a.n
  {
    hide FromInt, FitsDouble;
    if a.Int? && b.Float? {
      FloorOfInt(a.n);
      ZeroFits();
      if b.f.Finite? {
        IntegerIsFloat(a.n, b.f.x);
      } else {
        IntegerIsFloat(0, 0.0);
      }
    }
  }

  /** Two spellings of one number, where a number is declared, get one canonical
      value exactly when they agree on being the negative zero; where an integer
      is declared, always. */
  lemma NumbersExactly(depth: nat, a: Value, b: Value, schema: Value, defs: Defs, strict: bool)
    requires depth > 0 && OneNumber(a, b)
    ensures Declares(schema, defs, "number") ==>
      (Norm(depth, a, schema, defs, strict) == Norm(depth, b, schema, defs, strict) <==> (NegZero(a) <==> NegZero(b)))
    ensures Declares(schema, defs, "integer") ==>
      Norm(depth, a, schema, defs, strict) == Norm(depth, b, schema, defs, strict)
  {
    hide Norm, Coerce, Declares, Number;
    CoercedNumbers(a, b);
    if Declares(schema, defs, "number") {
      NumberCoerced(depth, a, schema, defs, strict, "number");
      NumberCoerced(depth, b, schema, defs, strict, "number");
    }
    if Declares(schema, defs, "integer") {
      NumberCoerced(depth, a, schema, defs, strict, "integer");
      NumberCoerced(depth, b, schema, defs, strict, "integer");
    }
  }

  /** Two keyable integers share a canonical value under "number" exactly when
      they round to one float: within 2 to the 53 only when they are equal. */
  lemma IntegersExactly(depth: nat, m: int, n: int, schema: Value, defs: Defs, strict: bool)
    requires depth > 0 && Declares(schema, defs, "number")
    requires Norm(depth, Int(m), schema, defs, strict).Some? && Norm(depth, Int(n), schema, defs, strict).Some?
    ensures Norm(depth, Int(m), schema, defs, strict) == Norm(depth, Int(n), schema, defs, strict)
            <==> Rounded(m) == Rounded(n)
    ensures Magnitude(m) <= MANTISSA && Magnitude(n) <= MANTISSA ==> (Rounded(m) == Rounded(n) <==> m == n)
  {
    hide Norm, Declares, Nearest, Exact;
    NumberCoerced(depth, Int(m), schema, defs, strict, "number");
    NumberCoerced(depth, Int(n), schema, defs, strict, "number");
    FloorOfInt(Rounded(m));
    FloorOfInt(Rounded(n));
    SmallExact(m);
    SmallExact(n);
  }

  lemma SmallExact(n: int)
    ensures Magnitude(n) <= MANTISSA ==> Rounded(n) == n
  {
    hide Nearest;
    assert Magnitude(n) <= MANTISSA ==> Exact(Magnitude(n)) by {
      assert MANTISSA % 2 == 0 && MANTISSA / 2 < MANTISSA;
    }
    NearestExact(Magnitude(n));
  }

  // ---------------------------------------------------- one number in a call

  /** The same at a whole call: respelling one declared number leaves a keyable
      call's canonical value alone exactly when the zero signs agree. */
  lemma CallNumbers(depth: nat, raw: Fields, name: string, a: Value, b: Value, schema: Value, strict: bool)
    requires var defs := DefsOf(AsMap(schema));
      && depth > 1 && Resolve(schema, defs).Some? && name in Properties(Resolve(schema, defs).value)
      && Declares(Property(Resolve(schema, defs).value, name), defs, "number") && OneNumber(a, b)
    requires Args(depth, raw[name := a], schema, strict).Some?
    ensures Args(depth, raw[name := a], schema, strict) == Args(depth, raw[name := b], schema, strict)
            <==> (NegZero(a) <==> NegZero(b))
  {
    hide Resolve, NormFields, Norm, NormField, Properties, Property, Declares, Number, Listable;
    var defs := DefsOf(AsMap(schema));
    var s := Resolve(schema, defs).value;
    var x, y := raw[name := a], raw[name := b];
    NumbersExactly(depth - 1, a, b, Property(s, name), defs, strict);
    FieldSpelled(depth, x, s, defs, strict, name);
    FieldSpelled(depth, y, s, defs, strict, name);
    if NegZero(a) <==> NegZero(b) {
      forall other
        ensures NormField(depth, x, s, defs, strict, other) == NormField(depth, y, s, defs, strict, other)
      {
        if other != name {
          FieldElsewhere(depth, x, y, s, defs, strict, other);
        }
      }
      FieldsAgree(depth, x, y, s, defs, strict);
    }
    if Args(depth, y, schema, strict) == Args(depth, x, schema, strict) {
      SharedField(depth, x, y, s, defs, strict, name);
    }
  }

  lemma SharedField(depth: nat, x: Fields, y: Fields, schema: Fields, defs: Defs,
                    strict: bool, name: string)
    requires depth > 0 && NormFields(depth, x, schema, defs, strict).Some?
    requires NormFields(depth, x, schema, defs, strict) == NormFields(depth, y, schema, defs, strict)
    ensures var f := NormField(depth, x, schema, defs, strict, name);
      !f.Unkeyable? && f == NormField(depth, y, schema, defs, strict, name)
  {
    hide NormFields, NormField;
    FieldsExactly(depth, x, schema, defs, strict);
    FieldsExactly(depth, y, schema, defs, strict);
    assert !Blocks(depth, x, schema, defs, strict, name) && !Blocks(depth, y, schema, defs, strict, name);
  }

  lemma FieldSpelled(depth: nat, fields: Fields, schema: Fields, defs: Defs, strict: bool, name: string)
    requires depth > 0 && name in Properties(schema) && name in fields
    ensures var r := Norm(depth - 1, fields[name], Property(schema, name), defs, strict);
      NormField(depth, fields, schema, defs, strict, name) == if r.None? then Unkeyable else Given(r.value)
  {
    hide Norm, Resolve;
  }

  // ---------------------------------------------------- the inputs that tell

  const NUMBER := Obj(map["properties" := Obj(map["x" := Obj(map["type" := Str("number")])])])

  lemma NumberSchema(depth: nat, v: Value, strict: bool)
    requires depth > 1 && Number(v).Some?
    ensures DefsOf(AsMap(NUMBER)) == map[] && Resolve(NUMBER, map[]) == Some(NUMBER.fields)
    ensures Properties(NUMBER.fields).Keys == {"x"} && Declares(Property(NUMBER.fields, "x"), map[], "number")
    ensures Listable(NUMBER.fields)
  {
    assert "$ref" !in NUMBER.fields;
    assert "$ref" !in map["type" := Str("number")];
  }

  /** Zero spelled 0 and -0.0 under a declared number: one number, two canonical
      values, hence two keys. */
  lemma ZeroSignForks(depth: nat, strict: bool)
    requires depth > 1
    ensures OneNumber(Int(0), Float(NegativeZero))
    ensures
      var a := Args(depth, map["x" := Int(0)], NUMBER, strict);
      var b := Args(depth, map["x" := Float(NegativeZero)], NUMBER, strict);
      a == Some(map["x" := Float(Finite(0.0))]) && b == Some(map["x" := Float(NegativeZero)])
  {
    hide FromInt;
    ZeroFits();
    IntegerIsFloat(0, 0.0);
    NumberArgs(depth, Int(0), strict);
    NumberArgs(depth, Float(NegativeZero), strict);
  }

  /** A call of the tool above is its one coerced number. */
  lemma NumberArgs(depth: nat, v: Value, strict: bool)
    requires depth > 1 && Number(v).Some?
    ensures var r := Coerce(v, Str("number"));
      Args(depth, map["x" := v], NUMBER, strict) == if r.None? then None else Some(map["x" := r.value])
  {
    hide Resolve, NormFields, Norm, NormField, Properties, Property, Declares, Number, Listable, Coerce;
    NumberSchema(depth, v, strict);
    var fields, s, defs: Defs := map["x" := v], NUMBER.fields, map[];
    NumberCoerced(depth - 1, v, Property(s, "x"), defs, strict, "number");
    FieldSpelled(depth, fields, s, defs, strict, "x");
    var r := Coerce(v, Str("number"));
    if r.None? {
      OneBlocks(depth, fields, s, defs, strict, "x");
    } else {
      UndeclaredAsSpelled(depth, fields, s, defs, strict);
      IsNormalForm(depth, fields, s, defs, strict, map["x" := r.value]);
    }
  }

  /** Beyond 2 to the 53 neighbours merge, and far beyond the call is refused. */
  lemma LargeIntegers(depth: nat, strict: bool, huge: int)
    requires depth > 1 && Magnitude(huge) >= 2 * LIMIT
    ensures Args(depth, map["x" := Int(9007199254740993)], NUMBER, strict) ==
            Args(depth, map["x" := Int(9007199254740992)], NUMBER, strict)
    ensures Args(depth, map["x" := Int(huge)], NUMBER, strict) == None
  {
    NumberArgs(depth, Int(9007199254740993), strict);
    NumberArgs(depth, Int(9007199254740992), strict);
    NumberArgs(depth, Int(huge), strict);
    hide Args;
    HugeOverflows(huge);
    assert Unit(9007199254740993) == 2 && Unit(9007199254740992) == 2;
    assert Nearest(9007199254740993) == 9007199254740992 == Nearest(9007199254740992);
  }

  // ---------------------------------------------------- keys

  /** Two keyable calls of one tool share a key exactly when they are spellings
      of one call, or the digest has a collision; `dumps` writes no two
      canonical values alike. */
  lemma KeysExactly(h: Digest, depth: nat, a: Fields, b: Fields, schema: Value, strict: bool,
                    dumps: Fields -> Bytes, scope: string, run: string, tool: string)
    requires Args(depth, a, schema, strict).Some? && Args(depth, b, schema, strict).Some?
    requires var x, y := Args(depth, a, schema, strict).value, Args(depth, b, schema, strict).value;
      dumps(x) == dumps(y) ==> x == y
    ensures var x, y := dumps(Args(depth, a, schema, strict).value), dumps(Args(depth, b, schema, strict).value);
      var one := Reporting.DeriveKey(h, scope, run, tool, x) == Reporting.DeriveKey(h, scope, run, tool, y);
      && (SameCall(depth, a, b, schema, strict) ==> one)
      && (one ==> SameCall(depth, a, b, schema, strict) || Collision(h, x, y))
  {
    hide Args, SameCall;
    CallExactly(depth, a, b, schema, strict);
    var x, y := dumps(Args(depth, a, schema, strict).value), dumps(Args(depth, b, schema, strict).value);
    var head := scope + ":" + run + ":" + tool + ":";
    assert Reporting.DeriveKey(h, scope, run, tool, x)[|head|..] == h(x);
    assert Reporting.DeriveKey(h, scope, run, tool, y)[|head|..] == h(y);
  }
}
