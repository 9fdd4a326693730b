// How the independent verifier reads a feed file (verifier/verify.go): its own
// declaration of the record, its own line parser, and its tolerance of torn
// lines.

module VerifierInput {
  import opened Text
  import opened Json
  import opened Lines
  import JsonProofs
  import FeedRecord
  import Feed

  datatype Verdict = Verified | Refuted | Unverifiable

  datatype Finding = Finding(scope: string, verdict: Verdict, reason: string)

  datatype VRecord = VRecord(
    seqNo: nat, clock: nat, intentId: string, typ: string, detail: string,
    key: string, ruleHash: string, specHash: string, hash: string)

  datatype Line = Unparseable | BadShape | Good(record: VRecord)

  // ---------------------------------------------------- one line

  /** The value of a key in a decoded object; a repeated key keeps its last. */
  function Lookup(ms: seq<Member>, key: string): Option<Value> {
    if ms == [] then None
    else if ms[|ms| - 1].key == key then Some(ms[|ms| - 1].value)
    else Lookup(ms[..|ms| - 1], key)
  }

  /** A required integer literal with a minimum. */
  function IntField(ms: seq<Member>, key: string, min: nat): (n: Option<nat>)
    ensures n.Some? ==> n.value >= min
  {
    match Lookup(ms, key)
    case None => None
    case Some(v) =>
      if !v.Num? then None
      else match Atoi(v.literal)
        case None => None
        case Some(n) => if n < min then None else Some(n)
  }

  /** An optional string field; absent and null read as empty. */
  function StrField(ms: seq<Member>, key: string): Option<string> {
    match Lookup(ms, key)
    case None => Some("")
    case Some(v) => if v.Null? then Some("") else if v.Str? then Some(v.s) else None
  }

  function Shape(ms: seq<Member>): Line {
    var seqNo, clock := IntField(ms, "seq", 1), IntField(ms, "intent_seq", 0);
    var id, typ := StrField(ms, "intent_id"), StrField(ms, "type");
    var detail, key := StrField(ms, "detail"), StrField(ms, "idempotency_key");
    var rule, spec := StrField(ms, "rule_artifact_hash"), StrField(ms, "intent_spec_hash");
    var hash := StrField(ms, "trajectory_hash");
    if seqNo.None? || clock.None? || id.None? || id.value == "" || typ.None? || typ.value == ""
       || detail.None? || key.None? || rule.None? || spec.None? || hash.None?
    then BadShape
    else Good(VRecord(seqNo.value, clock.value, id.value, typ.value, detail.value,
                      key.value, rule.value, spec.value, hash.value))
  }

  /** Parse first, check the shape second: a JSON null is a map without fields,
      any other non-object does not parse. */
  function ParseLine(trimmed: string): Line {
    match Parse(trimmed)
    case None => Unparseable
    case Some(v) => if v.Null? then BadShape else if v.Obj? then Shape(v.members) else Unparseable
  }

  // ---------------------------------------------------- the file

  function LineFindings(line: string, lineno: nat, last: bool): seq<Finding> {
    var t := Feed.Trim(line);
    if t == "" then []
    else match ParseLine(t)
      case Unparseable => if last then [] else [Finding("feed", Unverifiable, "unparseable-line:" + Itoa(lineno))]
      case BadShape => [Finding("feed", Refuted, "bad-record:" + Itoa(lineno))]
      case Good(_) => []
  }

  function GoodOn(line: string): seq<VRecord> {
    var t := Feed.Trim(line);
    if t == "" then [] else match ParseLine(t) case Good(r) => [r] case _ => []
  }

  function FileFindings(lines: seq<string>): seq<Finding> {
    FindingsUpTo(lines, |lines|)
  }

  function FindingsUpTo(lines: seq<string>, n: nat): seq<Finding>
    requires n <= |lines|
  {
    if n == 0 then []
    else FindingsUpTo(lines, n - 1) + LineFindings(lines[n - 1], n, n == |lines|)
  }

  /** The records and the feed-level findings of one file. */
  method ParseFeed(raw: Bytes) returns (recs: seq<VRecord>, findings: seq<Finding>)
    ensures recs == Recover(raw, GoodOn) && findings == FileFindings(Split(raw, '\n'))
  {
    hide Split, DecodeAll, LineFindings, GoodOn;
    recs, findings := [], [];
    var lines := Split(raw, '\n');
    DecodeNothing<VRecord>(GoodOn);
    for k := 0 to |lines|
      invariant recs == DecodeAll(lines[..k], GoodOn) && findings == FindingsUpTo(lines, k)
    {
      DecodeSnoc(lines[..k], lines[k], GoodOn);
      assert lines[..k + 1] == lines[..k] + [lines[k]];
      var rec, finding := ReadOne(lines[k], k + 1, k == |lines| - 1);
      recs, findings := recs + rec, findings + finding;
    }
    assert lines[..|lines|] == lines;
  }

  method ReadOne(line: string, lineno: nat, tornTail: bool) returns (recs: seq<VRecord>, findings: seq<Finding>)
    ensures recs == GoodOn(line) && findings == LineFindings(line, lineno, tornTail)
  {
    hide ParseLine;
    recs, findings := [], [];
    var trimmed := Feed.Trim(line);
    if trimmed == "" {
      return;
    }
    match ParseLine(trimmed) {
      case Unparseable =>
        if !tornTail {
          findings := [Finding("feed", Unverifiable, "unparseable-line:" + Itoa(lineno))];
        }
      case BadShape =>
        findings := [Finding("feed", Refuted, "bad-record:" + Itoa(lineno))];
      case Good(r) =>
        recs := [r];
    }
  }

  lemma DecodeNothing<T>(dec: string -> seq<T>)
    ensures DecodeAll([], dec) == []
  {}

  lemma DecodeSnoc<T>(lines: seq<string>, line: string, dec: string -> seq<T>)
    ensures DecodeAll(lines + [line], dec) == DecodeAll(lines, dec) + dec(line)
  {
    DecodeAppend(lines, [line], dec);
    assert DecodeAll([line], dec) == dec(line) + DecodeAll([], dec);
  }

  // ---------------------------------------------------- what the feed writes

  /** A feed record through the verifier's declaration. */
  function Seen(r: FeedRecord.Record): VRecord
    requires r.globalSeq >= 0 && r.intentSeq >= 0
  {
    VRecord(r.globalSeq, r.intentSeq, r.intentId, r.typ, r.detail, r.key, r.ruleHash, r.specHash, r.hash)
  }

  /** What every record the gate appends satisfies. */
  predicate Readable(r: FeedRecord.Record) {
    r.globalSeq >= 1 && r.intentSeq >= 0 && r.intentId != "" && r.typ != ""
  }

  lemma {:induction false} LookupAppend(a: seq<Member>, b: seq<Member>, key: string)
    ensures Lookup(a + b, key) == if Lookup(b, key).Some? then Lookup(b, key) else Lookup(a, key)
    decreases |b|
  {
    if b == [] {
      assert a + b == a;
    } else {
      var init := b[..|b| - 1];
      LookupAppend(a, init, key);
      assert (a + b)[..|a + b| - 1] == a + init;
    }
  }

  lemma LookupOptional(t: FeedRecord.Tag, s: string, key: string)
    ensures Lookup(FeedRecord.Optional(t, s), key) ==
            if s != "" && FeedRecord.JsonName(t) == key then Some(Str(s)) else None
  {
    hide FeedRecord.JsonName;
    var ms := FeedRecord.Optional(t, s);
    assert ms != [] ==> ms[..|ms| - 1] == [];
  }

  lemma NamesDiffer(a: FeedRecord.Tag, b: FeedRecord.Tag)
    requires a != b
    ensures FeedRecord.JsonName(a) != FeedRecord.JsonName(b)
  {
    hide FeedRecord.JsonName, FeedRecord.TagOf;
    FeedRecord.TagOfName(a);
    FeedRecord.TagOfName(b);
  }

  function OptionalText(r: FeedRecord.Record, t: FeedRecord.Tag): string {
    match t
    case DetailTag => r.detail
    case ScorerTag => r.scorerId
    case KeyTag => r.key
    case RuleTag => r.ruleHash
    case SpecTag => r.specHash
    case HashTag => r.hash
    case _ => ""
  }

  function RequiredValue(r: FeedRecord.Record, t: FeedRecord.Tag): Option<Value> {
    match t
    case SeqTag => Some(Num(IntText(r.globalSeq)))
    case IntentSeqTag => Some(Num(IntText(r.intentSeq)))
    case IdTag => Some(Str(r.intentId))
    case TypeTag => Some(Str(r.typ))
    case _ => None
  }

  /** Every field of a record is found under its own JSON name. */
  lemma LookupMember(r: FeedRecord.Record, t: FeedRecord.Tag)
    ensures Lookup(FeedRecord.Members(r), FeedRecord.JsonName(t)) ==
      if RequiredValue(r, t).Some? then RequiredValue(r, t)
      else if OptionalText(r, t) == "" then None else Some(Str(OptionalText(r, t)))
  {
    hide FeedRecord.JsonName, Lookup, FeedRecord.Optional, FeedRecord.Required, OptionalText, RequiredValue;
    var key := FeedRecord.JsonName(t);
    var m0 := FeedRecord.Required(r);
    var m1 := m0 + FeedRecord.Optional(FeedRecord.DetailTag, r.detail);
    var m2 := m1 + FeedRecord.Optional(FeedRecord.ScorerTag, r.scorerId);
    var m3 := m2 + FeedRecord.Optional(FeedRecord.KeyTag, r.key);
    var m4 := m3 + FeedRecord.Optional(FeedRecord.RuleTag, r.ruleHash);
    var m5 := m4 + FeedRecord.Optional(FeedRecord.SpecTag, r.specHash);
    LookupRequired(r, t);
    AddOptional(m0, FeedRecord.DetailTag, r.detail, t);
    AddOptional(m1, FeedRecord.ScorerTag, r.scorerId, t);
    AddOptional(m2, FeedRecord.KeyTag, r.key, t);
    AddOptional(m3, FeedRecord.RuleTag, r.ruleHash, t);
    AddOptional(m4, FeedRecord.SpecTag, r.specHash, t);
    AddOptional(m5, FeedRecord.HashTag, r.hash, t);
    Tagged(r, t);
  }

  lemma Tagged(r: FeedRecord.Record, t: FeedRecord.Tag)
    ensures OptionalText(r, t) == match t
      case DetailTag => r.detail case ScorerTag => r.scorerId case KeyTag => r.key
      case RuleTag => r.ruleHash case SpecTag => r.specHash case HashTag => r.hash case _ => ""
    ensures RequiredValue(r, t).Some? <==> t.SeqTag? || t.IntentSeqTag? || t.IdTag? || t.TypeTag?
  {}

  lemma AddOptional(ms: seq<Member>, t: FeedRecord.Tag, s: string, asked: FeedRecord.Tag)
    ensures Lookup(ms + FeedRecord.Optional(t, s), FeedRecord.JsonName(asked)) ==
            if asked == t && s != "" then Some(Str(s)) else Lookup(ms, FeedRecord.JsonName(asked))
  {
    hide FeedRecord.JsonName, Lookup, FeedRecord.Optional;
    LookupAppend(ms, FeedRecord.Optional(t, s), FeedRecord.JsonName(asked));
    LookupOptional(t, s, FeedRecord.JsonName(asked));
    if asked != t {
      NamesDiffer(asked, t);
    }
  }

  lemma LookupRequired(r: FeedRecord.Record, t: FeedRecord.Tag)
    ensures Lookup(FeedRecord.Required(r), FeedRecord.JsonName(t)) == RequiredValue(r, t)
  {
    hide FeedRecord.JsonName, IntText, Lookup;
    var ms := FeedRecord.Required(r);
    OnlyMember(FeedRecord.SeqTag, ms[0].value, t);
    OnlyMember(FeedRecord.IntentSeqTag, ms[1].value, t);
    OnlyMember(FeedRecord.IdTag, ms[2].value, t);
    OnlyMember(FeedRecord.TypeTag, ms[3].value, t);
    LookupAppend([ms[0]], [ms[1]], FeedRecord.JsonName(t));
    LookupAppend([ms[0]] + [ms[1]], [ms[2]], FeedRecord.JsonName(t));
    LookupAppend([ms[0]] + [ms[1]] + [ms[2]], [ms[3]], FeedRecord.JsonName(t));
    assert ms == [ms[0]] + [ms[1]] + [ms[2]] + [ms[3]];
  }

  lemma OnlyMember(t: FeedRecord.Tag, v: Value, asked: FeedRecord.Tag)
    ensures Lookup([Member(FeedRecord.JsonName(t), v)], FeedRecord.JsonName(asked)) ==
            if asked == t then Some(v) else None
  {
    hide FeedRecord.JsonName;
    if asked != t {
      NamesDiffer(asked, t);
    }
    var m := [Member(FeedRecord.JsonName(t), v)];
    assert m[..0] == [];
  }

  lemma Names()
    ensures FeedRecord.JsonName(FeedRecord.SeqTag) == "seq"
    ensures FeedRecord.JsonName(FeedRecord.IntentSeqTag) == "intent_seq"
    ensures FeedRecord.JsonName(FeedRecord.IdTag) == "intent_id"
    ensures FeedRecord.JsonName(FeedRecord.TypeTag) == "type"
    ensures FeedRecord.JsonName(FeedRecord.DetailTag) == "detail"
    ensures FeedRecord.JsonName(FeedRecord.KeyTag) == "idempotency_key"
    ensures FeedRecord.JsonName(FeedRecord.RuleTag) == "rule_artifact_hash"
    ensures FeedRecord.JsonName(FeedRecord.SpecTag) == "intent_spec_hash"
    ensures FeedRecord.JsonName(FeedRecord.HashTag) == "trajectory_hash"
  {}

  lemma IntFieldOf(r: FeedRecord.Record, t: FeedRecord.Tag, n: nat, min: nat)
    requires RequiredValue(r, t) == Some(Num(IntText(n))) && n >= min
    ensures IntField(FeedRecord.Members(r), FeedRecord.JsonName(t), min) == Some(n)
  {
    hide FeedRecord.JsonName, IntText, Lookup, FeedRecord.Members, Atoi;
    LookupMember(r, t);
    AtoiIntText(n);
  }

  lemma StrFieldOf(r: FeedRecord.Record, t: FeedRecord.Tag, s: string)
    requires if RequiredValue(r, t).Some? then RequiredValue(r, t) == Some(Str(s)) else OptionalText(r, t) == s
    ensures StrField(FeedRecord.Members(r), FeedRecord.JsonName(t)) == Some(s)
  {
    hide FeedRecord.JsonName, Lookup, FeedRecord.Members;
    LookupMember(r, t);
  }

  /** The verifier's declaration reads the gate's lines field for field. */
  lemma SeenParses(r: FeedRecord.Record)
    requires Readable(r)
    ensures ParseLine(FeedRecord.Marshal(r)) == Good(Seen(r))
  {
    hide FeedRecord.JsonName, Lookup, FeedRecord.Members, IntField, StrField, PrintObject, Parse;
    var ms := FeedRecord.Members(r);
    FeedRecord.MembersAreFields(r);
    JsonProofs.ObjectParses(ms);
    IntFieldOf(r, FeedRecord.SeqTag, r.globalSeq, 1);
    IntFieldOf(r, FeedRecord.IntentSeqTag, r.intentSeq, 0);
    StrFieldOf(r, FeedRecord.IdTag, r.intentId);
    StrFieldOf(r, FeedRecord.TypeTag, r.typ);
    StrFieldOf(r, FeedRecord.DetailTag, r.detail);
    StrFieldOf(r, FeedRecord.KeyTag, r.key);
    StrFieldOf(r, FeedRecord.RuleTag, r.ruleHash);
    StrFieldOf(r, FeedRecord.SpecTag, r.specHash);
    StrFieldOf(r, FeedRecord.HashTag, r.hash);
    Names();
  }

  // ---------------------------------------------------- what it reads of a feed

  function BadOn(line: string): seq<bool> {
    var t := Feed.Trim(line);
    if t != "" && ParseLine(t).BadShape? then [true] else []
  }

  function TornOn(line: string): seq<bool> {
    var t := Feed.Trim(line);
    if t != "" && ParseLine(t).Unparseable? then [true] else []
  }

  predicate AllReadable(rs: seq<FeedRecord.Record>) { forall k :: 0 <= k < |rs| ==> Readable(rs[k]) }

  function SeenAll(rs: seq<FeedRecord.Record>): seq<VRecord>
    requires AllReadable(rs)
  {
    seq(|rs|, k requires 0 <= k < |rs| => Seen(rs[k]))
  }

  /** The verifier reads exactly the store's records from its file and finds no
      badly shaped line in it. */
  ghost predicate Legible(s: Feed.Store) {
    && AllReadable(s.records)
    && Recover(s.disk, GoodOn) == SeenAll(s.records)
    && Recover(s.disk, BadOn) == []
  }

  /** It finds no torn line either. */
  ghost predicate Clean(s: Feed.Store) { Recover(s.disk, TornOn) == [] }

  /** A line and its proper prefixes, as the verifier reads them. */
  lemma ReadPrefix(r: FeedRecord.Record, p: Bytes)
    requires Readable(r) && p <= FeedRecord.Marshal(r)
    ensures p == FeedRecord.Marshal(r) ==> GoodOn(p) == [Seen(r)] && TornOn(p) == []
    ensures p < FeedRecord.Marshal(r) ==> GoodOn(p) == []
    ensures BadOn(p) == []
  {
    hide FeedRecord.Marshal, Shape, Parse;
    FeedRecord.LineShape(r);
    Feed.DecodePrefix(r, p);
    Feed.TrimNothing(p);
    SeenParses(r);
  }

  lemma LineAtomic(r: FeedRecord.Record)
    requires Readable(r)
    ensures Atomic(FeedRecord.Marshal(r), GoodOn) && GoodOn(FeedRecord.Marshal(r)) == [Seen(r)]
    ensures Atomic(FeedRecord.Marshal(r), BadOn) && BadOn(FeedRecord.Marshal(r)) == []
    ensures TornOn(FeedRecord.Marshal(r)) == []
  {
    hide FeedRecord.Marshal, GoodOn, BadOn, TornOn;
    FeedRecord.LineShape(r);
    ReadPrefix(r, FeedRecord.Marshal(r));
    forall p | p < FeedRecord.Marshal(r)
      ensures GoodOn(p) == [] && BadOn(p) == []
    {
      ReadPrefix(r, p);
    }
  }

  lemma BlankLine()
    ensures GoodOn("") == [] && BadOn("") == [] && TornOn("") == []
  {}

  lemma WriteReads(s: Feed.Store, r: FeedRecord.Record, n: nat)
    requires s.needNewline == Unterminated(s.disk) && Readable(Feed.Stamp(s, r))
    requires n <= |Feed.FeedWrite(s, r)|
    ensures Recover(s.disk + Feed.FeedWrite(s, r)[..n], GoodOn) ==
            Recover(s.disk, GoodOn) + (if n >= |Feed.FeedWrite(s, r)| - 1 then [Seen(Feed.Stamp(s, r))] else [])
    ensures Recover(s.disk + Feed.FeedWrite(s, r)[..n], BadOn) == Recover(s.disk, BadOn)
  {
    hide Recover, FeedRecord.Marshal, GoodOn, BadOn, Unterminated, WriteOf;
    var line := FeedRecord.Marshal(Feed.Stamp(s, r));
    BlankLine();
    LineAtomic(Feed.Stamp(s, r));
    RecoverTorn(s.disk, line, n, GoodOn);
    RecoverTorn(s.disk, line, n, BadOn);
    assert Recover(s.disk, BadOn) + [] == Recover(s.disk, BadOn);
  }

  lemma SeenSnoc(rs: seq<FeedRecord.Record>, r: FeedRecord.Record)
    requires AllReadable(rs) && Readable(r)
    ensures AllReadable(rs + [r]) && SeenAll(rs + [r]) == SeenAll(rs) + [Seen(r)]
  {
    hide Readable, Seen;
    assert AllReadable(rs + [r]);
  }

  /** A crash at any byte keeps the file legible. */
  lemma TornLegible(s: Feed.Store, r: FeedRecord.Record, n: nat)
    requires Feed.Sound(s) && Legible(s) && Readable(Feed.Stamp(s, r)) && n <= |Feed.FeedWrite(s, r)|
    ensures Legible(Feed.Torn(s, r, n))
  {
    hide Recover, Feed.FeedWrite, Readable, SeenAll;
    Feed.TornSound(s, r, n);
    Feed.MaxOfNumbered(s.records);
    WriteReads(s, r, n);
    SeenSnoc(s.records, Feed.Stamp(s, r));
  }

  lemma AppendLegible(s: Feed.Store, r: FeedRecord.Record)
    requires Feed.Sound(s) && Legible(s) && Readable(Feed.Stamp(s, r))
    ensures Legible(Feed.Appended(s, r))
    ensures Clean(s) && !Unterminated(s.disk) ==> Clean(Feed.Appended(s, r)) && !Unterminated(Feed.Appended(s, r).disk)
  {
    hide Recover, Feed.FeedWrite, Readable, SeenAll, TornOn, GoodOn, BadOn;
    var n := |Feed.FeedWrite(s, r)|;
    WriteReads(s, r, n);
    assert Feed.FeedWrite(s, r)[..n] == Feed.FeedWrite(s, r);
    WriteNonEmpty(s, r);
    SeenSnoc(s.records, Feed.Stamp(s, r));
    if Clean(s) && !Unterminated(s.disk) {
      CleanWrite(s, r);
    }
  }

  lemma WriteNonEmpty(s: Feed.Store, r: FeedRecord.Record)
    ensures |Feed.FeedWrite(s, r)| > 0
  {
    hide FeedRecord.Marshal;
  }

  lemma CleanWrite(s: Feed.Store, r: FeedRecord.Record)
    requires Feed.Sound(s) && Clean(s) && !Unterminated(s.disk) && Readable(Feed.Stamp(s, r))
    ensures Recover(s.disk + Feed.FeedWrite(s, r), TornOn) == [] && !Unterminated(s.disk + Feed.FeedWrite(s, r))
  {
    hide Recover, FeedRecord.Marshal, TornOn, GoodOn, BadOn, Readable;
    var line := FeedRecord.Marshal(Feed.Stamp(s, r));
    BlankLine();
    LineAtomic(Feed.Stamp(s, r));
    RecoverTail(s.disk, line, TornOn);
    RecoverNewline(s.disk + "" + line, TornOn);
    assert s.disk + Feed.FeedWrite(s, r) == s.disk + "" + line + "\n";
  }

  lemma EmptyLegible()
    ensures Legible(Feed.Opened("")) && Clean(Feed.Opened("")) && !Unterminated("")
  {
    hide GoodOn, BadOn, TornOn;
    Feed.EmptySound();
    BlankLine();
    RecoverPiece("", GoodOn);
    RecoverPiece("", BadOn);
    RecoverPiece("", TornOn);
  }

  /** Feed-level findings of a file without badly shaped lines only abstain;
      without torn lines there are none. */
  lemma {:induction false} FindingsAbstain(lines: seq<string>, n: nat)
    requires n <= |lines| && DecodeAll(lines[..n], BadOn) == []
    ensures forall f :: f in FindingsUpTo(lines, n) ==> f.verdict == Unverifiable
    ensures DecodeAll(lines[..n], TornOn) == [] ==> FindingsUpTo(lines, n) == []
  {
    hide DecodeAll, FindingsUpTo, LineFindings, BadOn, TornOn;
    if n == 0 {
      NoFindings(lines);
    } else {
      FindingsStep(lines, n);
      assert lines[..n] == lines[..n - 1] + [lines[n - 1]];
      DecodeSnoc(lines[..n - 1], lines[n - 1], BadOn);
      DecodeSnoc(lines[..n - 1], lines[n - 1], TornOn);
      FindingsAbstain(lines, n - 1);
      OneAbstains(lines[n - 1], n, n == |lines|);
    }
  }

  lemma NoFindings(lines: seq<string>)
    ensures FindingsUpTo(lines, 0) == []
  {}

  lemma FindingsStep(lines: seq<string>, n: nat)
    requires 0 < n <= |lines|
    ensures FindingsUpTo(lines, n) == FindingsUpTo(lines, n - 1) + LineFindings(lines[n - 1], n, n == |lines|)
  {
    hide LineFindings;
  }

  lemma OneAbstains(line: string, lineno: nat, last: bool)
    requires BadOn(line) == []
    ensures forall f :: f in LineFindings(line, lineno, last) ==> f.verdict == Unverifiable
    ensures TornOn(line) == [] ==> LineFindings(line, lineno, last) == []
  {
    hide ParseLine;
  }

  lemma LegibleFindings(s: Feed.Store)
    requires Legible(s)
    ensures forall f :: f in FileFindings(Split(s.disk, '\n')) ==> f.verdict == Unverifiable
    ensures Clean(s) ==> FileFindings(Split(s.disk, '\n')) == []
  {
    hide Split, FindingsUpTo;
    var lines := Split(s.disk, '\n');
    assert lines[..|lines|] == lines;
    FindingsAbstain(lines, |lines|);
  }
}
