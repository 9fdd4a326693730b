// What recovery needs from the line codec: a printed object parses back, no
// proper prefix of it parses, and it holds no line break.

module JsonProofs {
  import opened Text
  import opened Json

  // ------------------------------------------------------- reading back

  lemma UnitShape(s: string)
    requires s != ""
    ensures var e := EscapeUnit(s);
      || (e[0] == '\\' && 2 <= |e| <= 6)
      || (e == [s[0]] && UnitLength(s) == 1 && s[0] >= ' ' && s[0] != '\"' && s[0] != '\\')
  {}

  /** A backslash followed by `u` needs four more characters. */
  lemma UnitTail(s: string)
    requires s != "" && EscapeUnit(s)[0] == '\\'
    ensures var e := EscapeUnit(s); |e| == 2 || (|e| == 6 && e[1] == 'u')
  {}

  lemma ParseUnicode(n: nat, rest: string)
    requires n < 0xD800
    ensures ParseEscape("u" + Hex4(n) + rest) == Ok(Utf8(n), rest)
  {
    var t := "u" + Hex4(n) + rest;
    UnhexHex4(n);
    assert t[1..5] == Hex4(n) && t[5..] == rest;
  }

  lemma ParseShort(c: char, rest: string)
    requires c in "\"\\bfnrt"
    ensures ParseEscape([c] + rest) ==
      Ok(if c == 'b' then [8 as char] else if c == 'f' then [12 as char] else if c == 'n' then "\n"
         else if c == 'r' then "\r" else if c == 't' then "\t" else [c], rest)
  {
    var t := [c] + rest;
    assert t[1..] == rest;
  }

  lemma EscapeUnitParses(s: string, rest: string)
    requires s != "" && EscapeUnit(s)[0] == '\\'
    ensures ParseEscape(EscapeUnit(s)[1..] + rest) == Ok(s[..UnitLength(s)], rest)
  {
    hide ParseEscape;
    var body := EscapeUnit(s)[1..];
    if UnitLength(s) == 3 {
      var n := if s[2] as int == 0xA8 then 0x2028 else 0x2029;
      ParseUnicode(n, rest);
      assert body == "u" + Hex4(n);
      assert Utf8(n) == s[..3];
    } else if |body| == 5 {
      ParseUnicode(s[0] as int, rest);
      assert body == "u" + Hex4(s[0] as int);
      assert s[..1] == [s[0]];
    } else {
      ParseShort(body[0], rest);
      assert body == [body[0]];
      assert s[..1] == [s[0]];
    }
  }

  lemma {:induction false} StringParses(s: string, rest: string)
    ensures ParseString(Escape(s) + "\"" + rest) == Ok(s, rest)
    decreases |s|
  {
    hide EscapeUnit, ParseEscape, UnitLength;
    var t := Escape(s) + "\"" + rest;
    if s == "" {
      assert t[1..] == rest;
    } else {
      var e, k := EscapeUnit(s), UnitLength(s);
      var tail := Escape(s[k..]) + "\"" + rest;
      assert t == e + tail;
      StringParses(s[k..], rest);
      assert s == s[..k] + s[k..];
      UnitShape(s);
      if e[0] == '\\' {
        EscapeUnitParses(s, tail);
        assert t[1..] == e[1..] + tail;
      } else {
        assert t[1..] == tail && s == [s[0]] + s[k..];
      }
    }
  }

  lemma FieldParses(v: Value, rest: string)
    requires IsField(v)
    requires rest != "" && (rest[0] == ',' || rest[0] == '}')
    ensures ParseValue(PrintField(v) + rest) == Ok(v, rest)
  {
    if v.Str? {
      StringField(v.s, rest);
    } else {
      NumberField(v.literal, rest);
    }
  }

  lemma StringField(s: string, rest: string)
    ensures ParseValue(Quote(s) + rest) == Ok(Str(s), rest)
  {
    hide ParseString, Escape;
    var t := Quote(s) + rest;
    StringParses(s, rest);
    assert t[1..] == Escape(s) + "\"" + rest;
  }

  lemma NumberLengthOf(l: string, rest: string)
    requires IsInteger(l)
    requires rest == "" || rest[0] == ',' || rest[0] == '}'
    ensures NumberLength(l + rest) == Some(|l|)
  {
    hide DigitRun;
    var t := l + rest;
    var sign := if l[0] == '-' then 1 else 0;
    var digits := l[sign..];
    DigitRunOf(digits, rest);
    assert t[sign] == digits[0] && t[sign..] == digits + rest;
    assert sign + |digits| == |l| && t[|l|..] == rest && t[|l| + 0..] == rest;
  }

  lemma NumberField(l: string, rest: string)
    requires IsInteger(l)
    requires rest == "" || rest[0] == ',' || rest[0] == '}'
    ensures ParseValue(l + rest) == Ok(Num(l), rest)
  {
    hide ParseString, ParseMembers, ParseItems, NumberLength, DigitRun;
    var t := l + rest;
    NumberLengthOf(l, rest);
    assert t[0] == l[0] && (l[0] == '-' || IsDigit(l[0]));
    assert t[|l|..] == rest && t[..|l|] == l;
  }

  lemma FieldStart(v: Value, p: string, more: string)
    requires IsField(v) && p <= PrintField(v) + more
    ensures SkipSpace(p) == p
  {
    if p != "" {
      assert p[0] == PrintField(v)[0];
    }
  }

  /** The text after the colon of a member, up to and including the separator. */
  function AfterField(m: Member, s: string): Parsed<seq<Member>> {
    var t := SkipSpace(s);
    if t != "" && t[0] == '}' then Ok([m], t[1..])
    else if t != "" && t[0] == ',' then
      match ParseMembers(SkipSpace(t[1..]))
      case Fail => Fail
      case Ok(ms, rest) => Ok([m] + ms, rest)
    else Fail
  }

  lemma NameParses(key: string, s: string)
    ensures ParseMembers(Quote(key) + ":" + s) ==
      match ParseValue(SkipSpace(s))
      case Fail => Fail
      case Ok(v, s2) => AfterField(Member(key, v), s2)
  {
    hide ParseString, ParseValue, Escape;
    var colon := ":" + s;
    var t := Quote(key) + ":" + s;
    assert t[1..] == Escape(key) + "\"" + colon;
    StringParses(key, colon);
    assert SkipSpace(colon) == colon && colon[1..] == s;
  }

  lemma {:induction false} MembersParse(ms: seq<Member>, rest: string)
    requires ms != [] && AreFields(ms)
    ensures ParseMembers(PrintMembers(ms) + rest) == Ok(ms, rest)
    decreases |ms|
  {
    hide ParseMembers, ParseValue, Quote, IsField, PrintField, AfterField, PrintMembers;
    var m := ms[0];
    var sep := if |ms| == 1 then "}" + rest else "," + (PrintMembers(ms[1..]) + rest);
    var field := PrintField(m.value) + sep;
    MembersSplit(ms, rest, sep);
    NameParses(m.key, field);
    FieldStart(m.value, field, sep);
    FieldParses(m.value, sep);
    if |ms| == 1 {
      assert ms == [m];
      LastField(m, rest);
    } else {
      MembersParse(ms[1..], rest);
      NextField(m, ms[1..], rest);
      assert ms == [m] + ms[1..];
    }
  }

  lemma MembersSplit(ms: seq<Member>, rest: string, sep: string)
    requires ms != [] && AreFields(ms)
    requires sep == if |ms| == 1 then "}" + rest else "," + (PrintMembers(ms[1..]) + rest)
    ensures PrintMembers(ms) + rest == Quote(ms[0].key) + ":" + (PrintField(ms[0].value) + sep)
  {
    hide Quote, PrintField;
    var name, value := Quote(ms[0].key) + ":", PrintField(ms[0].value);
    var tail := if |ms| == 1 then "}" else "," + PrintMembers(ms[1..]);
    assert PrintMembers(ms) == name + value + tail;
    hide PrintMembers;
    if |ms| > 1 {
      Regroup(",", PrintMembers(ms[1..]), rest);
    }
    Regroup(name + value, tail, rest);
    Regroup(name, value, tail + rest);
  }

  lemma Regroup(a: string, b: string, c: string)
    ensures a + b + c == a + (b + c)
  {}

  lemma LastField(m: Member, rest: string)
    ensures AfterField(m, "}" + rest) == Ok([m], rest)
  {
    var s := "}" + rest;
    assert s[1..] == rest;
  }

  lemma NextField(m: Member, ms: seq<Member>, rest: string)
    requires ms != [] && AreFields(ms)
    requires ParseMembers(PrintMembers(ms) + rest) == Ok(ms, rest)
    ensures AfterField(m, "," + (PrintMembers(ms) + rest)) == Ok([m] + ms, rest)
  {
    hide ParseMembers, PrintMembers;
    var t := PrintMembers(ms) + rest;
    var s := "," + t;
    MembersStart(ms, t, rest);
    assert SkipSpace(s) == s && s[1..] == t;
  }

  lemma MembersStart(ms: seq<Member>, p: string, rest: string)
    requires ms != [] && AreFields(ms) && p <= PrintMembers(ms) + rest
    ensures SkipSpace(p) == p
  {
    if p != "" {
      assert p[0] == '\"';
    }
  }

  lemma ObjectParses(ms: seq<Member>)
    requires ms != [] && AreFields(ms)
    ensures Parse(PrintObject(ms)) == Some(Obj(ms))
  {
    var t := PrintObject(ms);
    MembersParse(ms, "");
    assert t[1..] == PrintMembers(ms) == PrintMembers(ms) + "";
  }

  // ------------------------------------------------------- proper prefixes

  lemma EscapePrefixFails(s: string, p: string)
    requires s != "" && EscapeUnit(s)[0] == '\\'
    requires p < EscapeUnit(s)[1..]
    ensures ParseEscape(p).Fail?
  {
    UnitTail(s);
    if p != "" {
      assert p[0] == 'u' && |p| < 5;
    }
  }

  /** A truncated string literal is not a literal. */
  lemma {:induction false} StringPrefixFails(s: string, p: string)
    requires p < Escape(s) + "\""
    ensures ParseString(p).Fail?
    decreases |s|
  {
    hide EscapeUnit, ParseEscape, UnitLength;
    var t := Escape(s) + "\"";
    if s != "" && p != "" {
      UnitShape(s);
      var e, k := EscapeUnit(s), UnitLength(s);
      var tail := Escape(s[k..]) + "\"";
      assert t == e + tail;
      assert p[0] == e[0];
      if |p| < |e| {
        assert p == e[..|p|];
        EscapePrefixFails(s, p[1..]);
      } else {
        var q := p[|e|..];
        assert p == e + q;
        assert q < tail;
        StringPrefixFails(s[k..], q);
        if e[0] == '\\' {
          EscapeUnitParses(s, q);
          assert p[1..] == e[1..] + q;
        } else {
          assert p[1..] == q;
        }
      }
    }
  }

  /** Reading a truncated field either fails or consumes all that is left. */
  lemma FieldPrefix(v: Value, p: string)
    requires IsField(v) && p <= PrintField(v)
    ensures var r := ParseValue(p); r.Fail? || r.rest == ""
  {
    if p != "" {
      if v.Str? {
        StringFieldPrefix(v.s, p);
      } else {
        NumberPrefix(v.literal, p);
      }
    }
  }

  lemma NumberPrefix(l: string, p: string)
    requires IsInteger(l) && p != "" && p <= l
    ensures var r := ParseValue(p); r.Fail? || r.rest == ""
  {
    hide ParseString, ParseMembers, ParseItems;
    if p == "-" {
      assert NumberLength(p) == None;
    } else {
      assert IsInteger(p);
      NumberField(p, "");
      assert p + "" == p;
    }
  }

  lemma StringFieldPrefix(s: string, p: string)
    requires p != "" && p <= Quote(s)
    ensures var r := ParseValue(p); r.Fail? || r.rest == ""
  {
    hide ParseString, Escape;
    var body := Escape(s) + "\"";
    assert Quote(s)[1..] == body;
    assert p[0] == '\"' && p[1..] <= body;
    if |p| - 1 < |body| {
      StringPrefixFails(s, p[1..]);
    } else {
      StringParses(s, "");
      assert p[1..] == body + "";
    }
  }

  lemma NamePrefixFails(key: string, p: string)
    requires p <= Quote(key)
    ensures ParseMembers(p).Fail?
  {
    hide ParseString, ParseValue, Escape;
    if p != "" {
      var name := Escape(key) + "\"";
      assert Quote(key)[1..] == name;
      assert p[0] == '\"' && p[1..] <= name;
      if |p| - 1 < |name| {
        StringPrefixFails(key, p[1..]);
      } else {
        StringParses(key, "");
        assert p[1..] == name + "";
      }
    }
  }

  /** A truncated member fails when the text after its field does. */
  lemma MemberPrefixFails(m: Member, more: string, p: string)
    requires IsField(m.value) && more != "" && (more[0] == ',' || more[0] == '}')
    requires p < PrintField(m.value) + more
    requires |p| > |PrintField(m.value)| ==> AfterField(m, p[|PrintField(m.value)|..]).Fail?
    ensures ParseMembers(Quote(m.key) + ":" + p).Fail?
  {
    hide ParseMembers, ParseValue, Quote, IsField, PrintField, AfterField;
    var field := PrintField(m.value);
    NameParses(m.key, p);
    FieldStart(m.value, p, more);
    if |p| <= |field| {
      assert p == (field + more)[..|p|] == field[..|p|];
      FieldPrefix(m.value, p);
      var r := ParseValue(p);
      if r.Ok? {
        AfterNothing(Member(m.key, r.value));
      }
    } else {
      var q := p[|field|..];
      assert p == field + q && q[0] == (field + more)[|field|] == more[0];
      FieldParses(m.value, q);
    }
  }

  lemma AfterNothing(m: Member)
    ensures AfterField(m, "").Fail?
  {}

  lemma {:induction false} MembersPrefixFails(ms: seq<Member>, p: string)
    requires ms != [] && AreFields(ms)
    requires p < PrintMembers(ms)
    ensures ParseMembers(p).Fail?
    decreases |ms|
  {
    hide ParseMembers, ParseValue, Quote, IsField, PrintField, AfterField;
    var m := ms[0];
    var name, field := Quote(m.key), PrintField(m.value);
    var more := if |ms| == 1 then "}" else "," + PrintMembers(ms[1..]);
    var body := field + more;
    assert PrintMembers(ms) == name + ":" + body;
    if |p| <= |name| {
      assert p == PrintMembers(ms)[..|p|] == name[..|p|];
      NamePrefixFails(m.key, p);
    } else {
      var q := p[|name| + 1..];
      assert p == name + ":" + q;
      assert q == PrintMembers(ms)[|name| + 1..|p|] == body[..|q|];
      if |q| > |field| {
        var r := q[|field|..];
        assert r == body[|field|..|q|] == more[..|r|];
        TailPrefixFails(ms, r);
      }
      MemberPrefixFails(m, more, q);
    }
  }

  lemma TailPrefixFails(ms: seq<Member>, p: string)
    requires ms != [] && AreFields(ms) && p != ""
    requires p < (if |ms| == 1 then "}" else "," + PrintMembers(ms[1..]))
    ensures AfterField(ms[0], p).Fail?
    decreases |ms|, 0
  {
    hide ParseMembers, Quote, IsField, PrintField;
    var rest := p[1..];
    assert p[0] == ',' && |ms| > 1;
    var more := "," + PrintMembers(ms[1..]);
    assert more[1..] == PrintMembers(ms[1..]);
    assert rest == more[1..|p|] == PrintMembers(ms[1..])[..|rest|];
    MembersPrefixFails(ms[1..], rest);
    MembersStart(ms[1..], rest, "");
  }

  lemma ObjectPrefixFails(ms: seq<Member>, p: string)
    requires ms != [] && AreFields(ms)
    requires p < PrintObject(ms)
    ensures Parse(p).None?
  {
    if p != "" {
      assert p[0] == '{';
      assert p[1..] < PrintMembers(ms);
      MembersPrefixFails(ms, p[1..]);
      if p[1..] != "" {
        assert p[1..][0] == '\"';
      }
    }
  }

  // ------------------------------------------------------- one line

  predicate OneLine(s: string) { '\n' !in s && '\r' !in s }

  lemma {:induction false} EscapeOneLine(s: string)
    ensures OneLine(Escape(s))
    decreases |s|
  {
    if s != "" {
      EscapeOneLine(s[UnitLength(s)..]);
      assert OneLine(EscapeUnit(s));
    }
  }

  lemma OneLineJoined(a: string, b: string)
    requires OneLine(a) && OneLine(b)
    ensures OneLine(a + b)
  {}

  lemma MemberOneLine(m: Member)
    requires IsField(m.value)
    ensures OneLine(Quote(m.key) + ":" + PrintField(m.value))
  {
    EscapeOneLine(m.key);
    if m.value.Str? {
      EscapeOneLine(m.value.s);
    }
    assert OneLine(Quote(m.key)) && OneLine(PrintField(m.value));
  }

  lemma {:induction false} MembersOneLine(ms: seq<Member>)
    requires ms != [] && AreFields(ms)
    ensures OneLine(PrintMembers(ms))
    ensures var s := PrintMembers(ms); s != "" && s[|s| - 1] == '}'
    decreases |ms|
  {
    hide Quote, PrintField, OneLine;
    MemberOneLine(ms[0]);
    var head := Quote(ms[0].key) + ":" + PrintField(ms[0].value);
    if |ms| == 1 {
      Closes();
      OneLineJoined(head, "}");
    } else {
      Closes();
      MembersOneLine(ms[1..]);
      OneLineJoined(",", PrintMembers(ms[1..]));
      OneLineJoined(head, "," + PrintMembers(ms[1..]));
    }
  }

  lemma Closes()
    ensures OneLine("}") && OneLine(",")
  {}

  lemma ObjectOneLine(ms: seq<Member>)
    requires ms != [] && AreFields(ms)
    ensures OneLine(PrintObject(ms)) && PrintObject(ms) != ""
    ensures PrintObject(ms)[|PrintObject(ms)| - 1] == '}'
  {
    MembersOneLine(ms);
  }
}
