// The bytes the two stores write and the hash is taken over, spelled out.

module WireText {
  import opened Text
  import opened Json
  import FeedRecord
  import Idempotency
  import Audit

  // ---------------------------------------------------- quoted strings

  /** A character that stands for itself inside a quoted string. */
  predicate Bare(c: char) { ' ' <= c <= '~' && c !in "\"\\<>&" }

  lemma BareUnit(s: string)
    requires s != "" && Bare(s[0])
    ensures EscapeUnit(s) == [s[0]] && UnitLength(s) == 1
  {}

  lemma {:induction false} BareQuote(s: string)
    requires forall k :: 0 <= k < |s| ==> Bare(s[k])
    ensures Escape(s) == s && Quote(s) == "\"" + s + "\""
  {
    hide EscapeUnit, UnitLength;
    if s != "" {
      BareUnit(s);
      BareQuote(s[1..]);
      assert s == [s[0]] + s[1..];
    }
  }

  /** The other characters: two by a backslash, five by a letter, the rest by
      four hexadecimal digits. */
  lemma EscapeForms()
    ensures EscapeUnit("\"") == "\\\"" && EscapeUnit("\\") == "\\\\" && EscapeUnit("\n") == "\\n"
    ensures EscapeUnit("\r") == "\\r" && EscapeUnit("\t") == "\\t"
    ensures EscapeUnit("<") == "\\u003c" && EscapeUnit(">") == "\\u003e" && EscapeUnit("&") == "\\u0026"
  {}

  // ---------------------------------------------------- one feed line

  /** One further member. */
  function Also(name: string, text: string): string { ",\"" + name + "\":" + text }

  function AlsoUnlessEmpty(name: string, s: string): string { if s == "" then "" else Also(name, Quote(s)) }

  function FeedText(r: FeedRecord.Record): string {
    "{\"seq\":" + IntText(r.globalSeq) + Also("intent_seq", IntText(r.intentSeq))
    + Also("intent_id", Quote(r.intentId)) + Also("type", Quote(r.typ))
    + AlsoUnlessEmpty("detail", r.detail) + AlsoUnlessEmpty("scorer_id", r.scorerId)
    + AlsoUnlessEmpty("idempotency_key", r.key) + AlsoUnlessEmpty("rule_artifact_hash", r.ruleHash)
    + AlsoUnlessEmpty("intent_spec_hash", r.specHash) + AlsoUnlessEmpty("trajectory_hash", r.hash) + "}"
  }

  /** What follows a member. */
  function Rest(ms: seq<Member>): string
    requires AreFields(ms)
  {
    if ms == [] then "}" else "," + PrintMembers(ms)
  }

  predicate BareName(name: string) { forall k :: 0 <= k < |name| ==> 'a' <= name[k] <= 'z' || name[k] == '_' }

  lemma NameIsBare(name: string)
    requires BareName(name)
    ensures forall k :: 0 <= k < |name| ==> Bare(name[k])
  {}

  lemma FirstMember(ms: seq<Member>)
    requires ms != [] && AreFields(ms)
    ensures AreFields(ms[1..])
    ensures PrintMembers(ms) == Quote(ms[0].key) + ":" + PrintField(ms[0].value) + Rest(ms[1..])
  {
    hide Quote, PrintField, IsField;
  }

  lemma Commas(quoted: string, name: string, field: string, rest: string)
    requires quoted == "\"" + name + "\""
    ensures "," + (quoted + ":" + field + rest) == Also(name, field) + rest
  {
    assert "," + (quoted + ":" + field + rest) == "," + "\"" + name + "\"" + ":" + field + rest;
    assert Also(name, field) + rest == ",\"" + name + "\":" + field + rest;
  }

  lemma RestOne(name: string, v: Value, more: seq<Member>)
    requires IsField(v) && AreFields(more) && BareName(name)
    ensures AreFields([Member(name, v)] + more)
    ensures Rest([Member(name, v)] + more) == Also(name, PrintField(v)) + Rest(more)
  {
    hide IsField, Escape, PrintMembers, PrintField, Quote, Also, Rest, BareName, Bare;
    NameIsBare(name);
    BareQuote(name);
    var ms := [Member(name, v)] + more;
    assert ms[1..] == more && ms[0] == Member(name, v);
    FirstMember(ms);
    Commas(Quote(name), name, PrintField(v), Rest(more));
    assert Rest(ms) == "," + PrintMembers(ms) by { RestSome(ms); }
  }

  lemma RestSome(ms: seq<Member>)
    requires AreFields(ms) && ms != []
    ensures Rest(ms) == "," + PrintMembers(ms)
  {
    hide PrintMembers;
  }

  lemma RestOptional(t: FeedRecord.Tag, s: string, more: seq<Member>)
    requires AreFields(more) && BareName(FeedRecord.JsonName(t))
    ensures AreFields(FeedRecord.Optional(t, s) + more)
    ensures Rest(FeedRecord.Optional(t, s) + more) == AlsoUnlessEmpty(FeedRecord.JsonName(t), s) + Rest(more)
  {
    hide PrintMembers, Quote;
    if s == "" {
      assert FeedRecord.Optional(t, s) + more == more;
    } else {
      RestOne(FeedRecord.JsonName(t), Str(s), more);
    }
  }

  lemma NamesBare()
    ensures BareName("seq") && BareName("intent_seq") && BareName("intent_id") && BareName("type")
    ensures BareName("detail") && BareName("scorer_id") && BareName("idempotency_key")
    ensures BareName("rule_artifact_hash") && BareName("intent_spec_hash") && BareName("trajectory_hash")
  {}

  lemma OptionalsText(r: FeedRecord.Record)
    ensures AreFields(FeedRecord.Optionals(r))
    ensures Rest(FeedRecord.Optionals(r)) ==
      AlsoUnlessEmpty("detail", r.detail) + (AlsoUnlessEmpty("scorer_id", r.scorerId)
      + (AlsoUnlessEmpty("idempotency_key", r.key) + (AlsoUnlessEmpty("rule_artifact_hash", r.ruleHash)
      + (AlsoUnlessEmpty("intent_spec_hash", r.specHash) + (AlsoUnlessEmpty("trajectory_hash", r.hash) + "}")))))
  {
    hide FeedRecord.Optional, AlsoUnlessEmpty, BareName, Rest;
    NamesBare();
    assert Rest([]) == "}" by { NoMore(); }
    var s6 := FeedRecord.Optional(FeedRecord.HashTag, r.hash) + [];
    RestOptional(FeedRecord.HashTag, r.hash, []);
    var s5 := FeedRecord.Optional(FeedRecord.SpecTag, r.specHash) + s6;
    RestOptional(FeedRecord.SpecTag, r.specHash, s6);
    var s4 := FeedRecord.Optional(FeedRecord.RuleTag, r.ruleHash) + s5;
    RestOptional(FeedRecord.RuleTag, r.ruleHash, s5);
    var s3 := FeedRecord.Optional(FeedRecord.KeyTag, r.key) + s4;
    RestOptional(FeedRecord.KeyTag, r.key, s4);
    var s2 := FeedRecord.Optional(FeedRecord.ScorerTag, r.scorerId) + s3;
    RestOptional(FeedRecord.ScorerTag, r.scorerId, s3);
    RestOptional(FeedRecord.DetailTag, r.detail, s2);
  }

  lemma NoMore()
    ensures AreFields([]) && Rest([]) == "}"
  {}

  lemma RequiredText(r: FeedRecord.Record, more: seq<Member>)
    requires AreFields(more)
    ensures AreFields(FeedRecord.Required(r) + more)
    ensures Rest(FeedRecord.Required(r) + more) ==
      Also("seq", IntText(r.globalSeq)) + (Also("intent_seq", IntText(r.intentSeq))
      + (Also("intent_id", Quote(r.intentId)) + (Also("type", Quote(r.typ)) + Rest(more))))
  {
    hide Also, BareName, Rest, IntText, Quote, IsInteger;
    NamesBare();
    FeedRecord.IntTextIsInteger(r.globalSeq);
    FeedRecord.IntTextIsInteger(r.intentSeq);
    var m1, m2 := Member("seq", Num(IntText(r.globalSeq))), Member("intent_seq", Num(IntText(r.intentSeq)));
    var m3, m4 := Member("intent_id", Str(r.intentId)), Member("type", Str(r.typ));
    RestOne("type", m4.value, more);
    RestOne("intent_id", m3.value, [m4] + more);
    RestOne("intent_seq", m2.value, [m3] + ([m4] + more));
    RestOne("seq", m1.value, [m2] + ([m3] + ([m4] + more)));
    assert FeedRecord.Required(r) + more == [m1] + ([m2] + ([m3] + ([m4] + more)));
  }

  /** A feed line is this text: four members always, six more unless empty. */
  lemma FeedLineText(r: FeedRecord.Record)
    ensures FeedRecord.Marshal(r) == FeedText(r)
  {
    hide Also, AlsoUnlessEmpty, Rest, IntText, Quote, PrintMembers, AreFields, FeedRecord.Members, FeedRecord.Required,
         FeedRecord.Optionals;
    OptionalsText(r);
    RequiredText(r, FeedRecord.Optionals(r));
    FeedRecord.MembersAreFields(r);
    var ms := FeedRecord.Members(r);
    assert ms == FeedRecord.Required(r) + FeedRecord.Optionals(r) by { Parts(r); }
    RestSome(ms);
    FirstOpens(IntText(r.globalSeq));
    DropComma(PrintMembers(ms), Also("seq", IntText(r.globalSeq)), "{\"seq\":" + IntText(r.globalSeq),
              Also("intent_seq", IntText(r.intentSeq)), Also("intent_id", Quote(r.intentId)),
              Also("type", Quote(r.typ)),
              AlsoUnlessEmpty("detail", r.detail), AlsoUnlessEmpty("scorer_id", r.scorerId),
              AlsoUnlessEmpty("idempotency_key", r.key), AlsoUnlessEmpty("rule_artifact_hash", r.ruleHash),
              AlsoUnlessEmpty("intent_spec_hash", r.specHash), AlsoUnlessEmpty("trajectory_hash", r.hash));
  }

  lemma Parts(r: FeedRecord.Record)
    ensures FeedRecord.Members(r) == FeedRecord.Required(r) + FeedRecord.Optionals(r)
  {
    hide FeedRecord.Optional, FeedRecord.Required;
  }

  lemma FirstOpens(number: string)
    ensures Also("seq", number) != "" && "{" + Also("seq", number)[1..] == "{\"seq\":" + number
  {
    assert ",\"" + "seq" + "\":" == ",\"seq\":";
  }

  lemma DropComma(body: string, first: string, first': string, b: string, c: string, d: string, e: string, f: string,
                  g: string, i: string, j: string, k: string)
    requires "," + body == first + (b + (c + (d + (e + (f + (g + (i + (j + (k + "}")))))))))
    requires first != "" && "{" + first[1..] == first'
    ensures "{" + body == first' + b + c + d + e + f + g + i + j + k + "}"
  {
    var rest := b + (c + (d + (e + (f + (g + (i + (j + (k + "}"))))))));
    assert body == ("," + body)[1..] == (first + rest)[1..] == first[1..] + rest;
    assert first' + b + c + d + e + f + g + i + j + k + "}" == first' + rest;
  }

  /** A reservation line is this text. */
  lemma KeyLineText(e: Idempotency.Entry)
    ensures Idempotency.Marshal(e) == "{\"key\":" + Quote(e.key) + ",\"id\":" + Quote(e.id) + "}"
  {
    hide Escape, Quote, IsField, PrintMembers, PrintField, Rest, Also;
    var ms := Idempotency.Members(e);
    Idempotency.MembersAreFields(e);
    assert Str(e.key).Str? && PrintField(Str(e.key)) == Quote(e.key) by { StrField(e.key); }
    assert PrintField(Str(e.id)) == Quote(e.id) by { StrField(e.id); }
    FirstMember(ms);
    BareQuote("key");
    BareQuote("id");
    NoMore();
    RestOne("id", Str(e.id), []);
    assert ms[1..] == [Member("id", Str(e.id))] + [];
    assert Also("id", Quote(e.id)) == ",\"id\":" + Quote(e.id) by { AlsoId(Quote(e.id)); }
    assert "\"" + "key" + "\"" + ":" == "\"key\":";
  }

  lemma StrField(s: string)
    ensures IsField(Str(s)) && PrintField(Str(s)) == Quote(s)
  {
    hide Quote;
  }

  lemma AlsoId(text: string)
    ensures Also("id", text) == ",\"id\":" + text
  {
    assert ",\"" + "id" + "\":" == ",\"id\":";
  }

  // ---------------------------------------------------- the hashed bytes

  /** What the trajectory hash is taken over, for one event and for two. */
  lemma EncodeText(detail: string)
    requires |detail| == 3
    ensures Audit.Encode([Audit.Event(0, "DECLARED", detail)]) == "1:0\n8:DECLARED\n3:" + detail + "\n"
    ensures Audit.Encode([Audit.Event(0, "DECLARED", detail), Audit.Event(12, "FAILED", "")])
         == "1:0\n8:DECLARED\n3:" + detail + "\n" + "2:12\n6:FAILED\n0:\n"
  {
    var a, b := Audit.Event(0, "DECLARED", detail), Audit.Event(12, "FAILED", "");
    assert Audit.EncodeEvent(a) == "1:0\n8:DECLARED\n3:" + detail + "\n" by { FirstEvent(detail); }
    assert Audit.EncodeEvent(b) == "2:12\n6:FAILED\n0:\n" by { SecondEvent(); }
    hide Audit.EncodeEvent, Audit.Encode;
    Audit.EncodeNone();
    Audit.EncodeSnoc([], a);
    Audit.EncodeSnoc([a], b);
    assert [] + [a] == [a] && [a] + [b] == [a, b];
    assert "" + Audit.EncodeEvent(a) == Audit.EncodeEvent(a);
  }

  lemma FirstEvent(detail: string)
    requires |detail| == 3
    ensures Audit.EncodeEvent(Audit.Event(0, "DECLARED", detail)) == "1:0\n8:DECLARED\n3:" + detail + "\n"
  {
    assert Itoa(0) == "0" && Itoa(1) == "1" && Itoa(8) == "8" && Itoa(3) == "3";
    hide Itoa;
    assert "1:0\n" + "8:DECLARED\n" == "1:0\n8:DECLARED\n";
    assert Audit.Field("0") == "1:0\n" && Audit.Field("DECLARED") == "8:DECLARED\n";
    assert Audit.Field(detail) == "3" + ":" + detail + "\n" == "3:" + detail + "\n";
    hide Audit.Field;
    assert "1:0\n8:DECLARED\n" + ("3:" + detail + "\n") == "1:0\n8:DECLARED\n3:" + detail + "\n";
  }

  lemma SecondEvent()
    ensures Audit.EncodeEvent(Audit.Event(12, "FAILED", "")) == "2:12\n6:FAILED\n0:\n"
  {
    assert Itoa(12) == Itoa(1) + "2" == "12" && Itoa(2) == "2" && Itoa(6) == "6" && Itoa(0) == "0";
    hide Itoa;
    assert Audit.Field("12") == "2:12\n" && Audit.Field("FAILED") == "6:FAILED\n" && Audit.Field("") == "0:\n";
    hide Audit.Field;
    assert "2:12\n" + "6:FAILED\n" + "0:\n" == "2:12\n6:FAILED\n0:\n";
  }
}
