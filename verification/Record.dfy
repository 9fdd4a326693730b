// The durable feed record and its JSON line (core/internal/durable/store.go).

module FeedRecord {
  import opened Text
  import opened Json
  import opened JsonProofs

  datatype Record = Record(
    globalSeq: int, intentSeq: int, intentId: string, typ: string, detail: string,
    scorerId: string, key: string, ruleHash: string, specHash: string, hash: string)

  const ZERO := Record(0, 0, "", "", "", "", "", "", "", "")

  datatype Tag = SeqTag | IntentSeqTag | IdTag | TypeTag | DetailTag | ScorerTag
               | KeyTag | RuleTag | SpecTag | HashTag

  /** The JSON name of each field. */
  function JsonName(t: Tag): string {
    match t
    case SeqTag => "seq"
    case IntentSeqTag => "intent_seq"
    case IdTag => "intent_id"
    case TypeTag => "type"
    case DetailTag => "detail"
    case ScorerTag => "scorer_id"
    case KeyTag => "idempotency_key"
    case RuleTag => "rule_artifact_hash"
    case SpecTag => "intent_spec_hash"
    case HashTag => "trajectory_hash"
  }

  function TagOf(name: string): Option<Tag> {
    if name == "seq" then Some(SeqTag)
    else if name == "intent_seq" then Some(IntentSeqTag)
    else if name == "intent_id" then Some(IdTag)
    else if name == "type" then Some(TypeTag)
    else if name == "detail" then Some(DetailTag)
    else if name == "scorer_id" then Some(ScorerTag)
    else if name == "idempotency_key" then Some(KeyTag)
    else if name == "rule_artifact_hash" then Some(RuleTag)
    else if name == "intent_spec_hash" then Some(SpecTag)
    else if name == "trajectory_hash" then Some(HashTag)
    else None
  }

  lemma TagOfName(t: Tag)
    ensures TagOf(JsonName(t)) == Some(t)
  {
    assert "intent_id"[0] != "scorer_id"[0];
    assert "idempotency_key"[0] != "trajectory_hash"[0];
  }

  function Optional(t: Tag, s: string): seq<Member> {
    if s == "" then [] else [Member(JsonName(t), Str(s))]
  }

  function Required(r: Record): seq<Member> {
    [Member(JsonName(SeqTag), Num(IntText(r.globalSeq))),
     Member(JsonName(IntentSeqTag), Num(IntText(r.intentSeq))),
     Member(JsonName(IdTag), Str(r.intentId)),
     Member(JsonName(TypeTag), Str(r.typ))]
  }

  /** Members in wire order; the six `omitempty` fields drop out when empty. */
  function Members(r: Record): seq<Member> {
    Required(r)
    + Optional(DetailTag, r.detail) + Optional(ScorerTag, r.scorerId) + Optional(KeyTag, r.key)
    + Optional(RuleTag, r.ruleHash) + Optional(SpecTag, r.specHash) + Optional(HashTag, r.hash)
  }

  lemma MembersAreFields(r: Record)
    ensures Members(r) != [] && AreFields(Members(r))
  {
    hide Itoa, JsonName;
    assert IsInteger(IntText(r.globalSeq)) by { IntTextIsInteger(r.globalSeq); }
    assert IsInteger(IntText(r.intentSeq)) by { IntTextIsInteger(r.intentSeq); }
  }

  lemma IntTextIsInteger(n: int)
    ensures IsInteger(IntText(n))
  {
    assert n < 0 ==> IntText(n)[1..] == Itoa(-n);
  }

  function Marshal(r: Record): (line: Bytes) {
    MembersAreFields(r);
    PrintObject(Members(r))
  }

  // ---------------------------------------------------- reading a record

  function PutText(r: Record, t: Tag, s: string): Record {
    match t
    case SeqTag => r
    case IntentSeqTag => r
    case IdTag => r.(intentId := s)
    case TypeTag => r.(typ := s)
    case DetailTag => r.(detail := s)
    case ScorerTag => r.(scorerId := s)
    case KeyTag => r.(key := s)
    case RuleTag => r.(ruleHash := s)
    case SpecTag => r.(specHash := s)
    case HashTag => r.(hash := s)
  }

  /** One member decoded into the struct: null and unknown names change
      nothing, a value of the wrong kind is an error. */
  function Apply(r: Record, m: Member): Option<Record> {
    match TagOf(m.key)
    case None => Some(r)
    case Some(t) =>
      if m.value.Null? then Some(r)
      else if t == SeqTag || t == IntentSeqTag then
        if !m.value.Num? then None
        else match Atoi(m.value.literal)
          case None => None
          case Some(n) => Some(if t == SeqTag then r.(globalSeq := n) else r.(intentSeq := n))
      else if m.value.Str? then Some(PutText(r, t, m.value.s))
      else None
  }

  function ApplyAll(r: Record, ms: seq<Member>): Option<Record>
    decreases |ms|
  {
    if ms == [] then Some(r)
    else match Apply(r, ms[0])
      case None => None
      case Some(r') => ApplyAll(r', ms[1..])
  }

  /** `json.Unmarshal(line, &rec)`; a bare `null` leaves the zero record. */
  function Unmarshal(line: Bytes): Option<Record> {
    match Parse(line)
    case None => None
    case Some(v) => if v.Null? then Some(ZERO) else if v.Obj? then ApplyAll(ZERO, v.members) else None
  }

  lemma ApplyOptional(r: Record, t: Tag, s: string, rest: seq<Member>)
    requires t != SeqTag && t != IntentSeqTag
    requires s == "" ==> PutText(r, t, "") == r
    ensures ApplyAll(r, Optional(t, s) + rest) == ApplyAll(PutText(r, t, s), rest)
  {
    hide JsonName, TagOf;
    var ms := Optional(t, s) + rest;
    TagOfName(t);
    if s == "" {
      assert ms == rest;
    } else {
      assert ms[1..] == rest;
    }
  }

  lemma ApplyFirst(r: Record, m: Member, rest: seq<Member>)
    ensures ApplyAll(r, [m] + rest) ==
      match Apply(r, m) case None => None case Some(r') => ApplyAll(r', rest)
  {
    assert ([m] + rest)[1..] == rest;
  }

  function Optionals(r: Record): seq<Member> {
    Optional(DetailTag, r.detail) + (Optional(ScorerTag, r.scorerId) + (Optional(KeyTag, r.key)
    + (Optional(RuleTag, r.ruleHash) + (Optional(SpecTag, r.specHash) + (Optional(HashTag, r.hash) + [])))))
  }

  function Head(r: Record): Record {
    ZERO.(globalSeq := r.globalSeq, intentSeq := r.intentSeq, intentId := r.intentId, typ := r.typ)
  }

  lemma ApplyRequired(r: Record, rest: seq<Member>)
    ensures ApplyAll(ZERO, Required(r) + rest) == ApplyAll(Head(r), rest)
  {
    hide JsonName, TagOf, ApplyAll, Itoa, Atoi, IntText;
    var ms := Required(r);
    TagOfName(SeqTag); TagOfName(IntentSeqTag); TagOfName(IdTag); TagOfName(TypeTag);
    AtoiIntText(r.globalSeq);
    AtoiIntText(r.intentSeq);
    assert ms + rest == [ms[0]] + ([ms[1]] + ([ms[2]] + ([ms[3]] + rest)));
    ApplyFirst(ZERO, ms[0], [ms[1]] + ([ms[2]] + ([ms[3]] + rest)));
    var r1 := ZERO.(globalSeq := r.globalSeq);
    ApplyFirst(r1, ms[1], [ms[2]] + ([ms[3]] + rest));
    var r2 := r1.(intentSeq := r.intentSeq);
    ApplyFirst(r2, ms[2], [ms[3]] + rest);
    ApplyFirst(r2.(intentId := r.intentId), ms[3], rest);
  }

  lemma ApplyOptionals(r: Record)
    ensures ApplyAll(Head(r), Optionals(r)) == Some(r)
  {
    hide Optional, ApplyAll;
    var s6 := Optional(HashTag, r.hash) + [];
    var s5 := Optional(SpecTag, r.specHash) + s6;
    var s4 := Optional(RuleTag, r.ruleHash) + s5;
    var s3 := Optional(KeyTag, r.key) + s4;
    var s2 := Optional(ScorerTag, r.scorerId) + s3;
    var r4 := Head(r);
    ApplyOptional(r4, DetailTag, r.detail, s2);
    var r5 := r4.(detail := r.detail);
    ApplyOptional(r5, ScorerTag, r.scorerId, s3);
    var r6 := r5.(scorerId := r.scorerId);
    ApplyOptional(r6, KeyTag, r.key, s4);
    var r7 := r6.(key := r.key);
    ApplyOptional(r7, RuleTag, r.ruleHash, s5);
    var r8 := r7.(ruleHash := r.ruleHash);
    ApplyOptional(r8, SpecTag, r.specHash, s6);
    ApplyOptional(r8.(specHash := r.specHash), HashTag, r.hash, []);
    ApplyNone(r);
  }

  lemma ApplyMembers(r: Record)
    ensures ApplyAll(ZERO, Members(r)) == Some(r)
  {
    hide ApplyAll, Optional;
    ApplyRequired(r, Optionals(r));
    ApplyOptionals(r);
    assert Members(r) == Required(r) + Optionals(r);
  }

  lemma ApplyNone(r: Record)
    ensures ApplyAll(r, []) == Some(r)
  {}

  /** Every record is read back from its own line. */
  lemma UnmarshalMarshal(r: Record)
    ensures Unmarshal(Marshal(r)) == Some(r)
  {
    hide Members, PrintObject, Parse, ApplyAll;
    MembersAreFields(r);
    ObjectParses(Members(r));
    ApplyMembers(r);
  }

  /** What recovery relies on: one non-empty line that ends in a brace and
      none of whose proper prefixes is JSON at all. */
  lemma LineShape(r: Record)
    ensures OneLine(Marshal(r)) && Marshal(r) != ""
    ensures Marshal(r)[|Marshal(r)| - 1] == '}'
    ensures forall p :: p < Marshal(r) ==> Parse(p).None?
  {
    hide Members, PrintObject, Parse;
    MembersAreFields(r);
    ObjectOneLine(Members(r));
    forall p | p < Marshal(r)
      ensures Parse(p).None?
    {
      ObjectPrefixFails(Members(r), p);
    }
  }
}
