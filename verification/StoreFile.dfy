// What the two stores read back from their files, line by line, in plain
// terms: the feed's recovery scan and the reservation store's.

module StoreFile {
  import opened Text
  import opened Json
  import opened Lines
  import opened FeedFile
  import Feed
  import FeedRecord
  import Idempotency

  // ---------------------------------------------------- decoding into a struct

  /** The last string under a name; nulls and other names change nothing. */
  function TextAt(ms: seq<Member>, name: string): string {
    if ms == [] then ""
    else
      var last := ms[|ms| - 1];
      if last.key == name && last.value.Str? then last.value.s else TextAt(ms[..|ms| - 1], name)
  }

  /** The last integer under a name. */
  function IntAt(ms: seq<Member>, name: string): int {
    if ms == [] then 0
    else
      var last := ms[|ms| - 1];
      if last.key == name && last.value.Num? && Atoi(last.value.literal).Some? then Atoi(last.value.literal).value
      else IntAt(ms[..|ms| - 1], name)
  }

  ghost predicate IsText(v: Value) { v.Null? || v.Str? }

  ghost predicate IsInt(v: Value) { v.Null? || (v.Num? && Atoi(v.literal).Some?) }

  /** A member fits the record: numbers under two names, strings under eight,
      anything under any other. */
  ghost predicate RecordFits(m: Member) {
    && (m.key in {"seq", "intent_seq"} ==> IsInt(m.value))
    && (m.key in {"intent_id", "type", "detail", "scorer_id"} ==> IsText(m.value))
    && (m.key in {"idempotency_key", "rule_artifact_hash", "intent_spec_hash", "trajectory_hash"} ==> IsText(m.value))
  }

  function RecordOf(ms: seq<Member>): FeedRecord.Record {
    FeedRecord.Record(
      IntAt(ms, "seq"), IntAt(ms, "intent_seq"), TextAt(ms, "intent_id"), TextAt(ms, "type"), TextAt(ms, "detail"),
      TextAt(ms, "scorer_id"), TextAt(ms, "idempotency_key"), TextAt(ms, "rule_artifact_hash"),
      TextAt(ms, "intent_spec_hash"), TextAt(ms, "trajectory_hash"))
  }

  lemma {:induction false} ApplySnoc(r: FeedRecord.Record, ms: seq<Member>, m: Member)
    ensures FeedRecord.ApplyAll(r, ms + [m]) ==
      match FeedRecord.ApplyAll(r, ms) case None => None case Some(r') => FeedRecord.Apply(r', m)
    decreases |ms|
  {
    hide FeedRecord.Apply;
    if ms == [] {
      assert (ms + [m])[1..] == [];
    } else {
      assert (ms + [m])[1..] == ms[1..] + [m];
      match FeedRecord.Apply(r, ms[0])
      case None =>
      case Some(r') => ApplySnoc(r', ms[1..], m);
    }
  }

  lemma TextSnoc(ms: seq<Member>, m: Member, name: string)
    ensures TextAt(ms + [m], name) == if m.key == name && m.value.Str? then m.value.s else TextAt(ms, name)
  {
    assert (ms + [m])[..|ms|] == ms;
  }

  lemma IntSnoc(ms: seq<Member>, m: Member, name: string)
    ensures IntAt(ms + [m], name) ==
      if m.key == name && m.value.Num? && Atoi(m.value.literal).Some? then Atoi(m.value.literal).value
      else IntAt(ms, name)
  {
    assert (ms + [m])[..|ms|] == ms;
  }

  /** One more member, in plain terms. */
  lemma RecordSnoc(ms: seq<Member>, m: Member)
    ensures FeedRecord.Apply(RecordOf(ms), m) == if RecordFits(m) then Some(RecordOf(ms + [m])) else None
  {
    hide TextAt, IntAt, Atoi;
    IntSnoc(ms, m, "seq");
    IntSnoc(ms, m, "intent_seq");
    TextSnoc(ms, m, "intent_id");
    TextSnoc(ms, m, "type");
    TextSnoc(ms, m, "detail");
    TextSnoc(ms, m, "scorer_id");
    TextSnoc(ms, m, "idempotency_key");
    TextSnoc(ms, m, "rule_artifact_hash");
    TextSnoc(ms, m, "intent_spec_hash");
    TextSnoc(ms, m, "trajectory_hash");
  }

  lemma {:induction false} RecordIs(ms: seq<Member>)
    ensures FeedRecord.ApplyAll(FeedRecord.ZERO, ms) ==
      if forall k :: 0 <= k < |ms| ==> RecordFits(ms[k]) then Some(RecordOf(ms)) else None
    decreases |ms|
  {
    hide FeedRecord.Apply, RecordFits, RecordOf;
    if ms == [] {
      NoMembers();
    } else {
      var init, last := ms[..|ms| - 1], ms[|ms| - 1];
      assert ms == init + [last];
      RecordIs(init);
      ApplySnoc(FeedRecord.ZERO, init, last);
      RecordSnoc(init, last);
    }
  }

  lemma NoMembers()
    ensures RecordOf([]) == FeedRecord.ZERO && EntryOf([]) == Idempotency.Entry("", "")
  {}

  // ---------------------------------------------------- the feed's lines

  /** The line holds this record: a JSON object whose known members fit, or a
      null, which reads as the empty record. */
  ghost predicate FeedLine(line: string, r: FeedRecord.Record) {
    exists t :: Trims(line, t) && t != "" && Parse(t).Some? &&
      ( || (Parse(t).value.Null? && r == FeedRecord.Record(0, 0, "", "", "", "", "", "", "", ""))
        || (Parse(t).value.Obj? && r == RecordOf(Parse(t).value.members)
            && forall k :: 0 <= k < |Parse(t).value.members| ==> RecordFits(Parse(t).value.members[k])))
  }

  lemma FeedLineIs(line: string)
    ensures forall r :: FeedLine(line, r) <==> Feed.DecodeLine(line) == [r]
    ensures |Feed.DecodeLine(line)| <= 1
  {
    hide Trims, Parse, RecordFits, RecordOf, FeedRecord.ApplyAll, Feed.Trim;
    TrimIs(line);
    var t := Feed.Trim(line);
    if t != "" && Parse(t).Some? && Parse(t).value.Obj? {
      RecordIs(Parse(t).value.members);
    }
  }

  /** The numbering resumes after the greatest number read, and not below 0. */
  ghost predicate Greatest(rs: seq<FeedRecord.Record>, n: int) {
    && n >= 0 && (forall k :: 0 <= k < |rs| ==> rs[k].globalSeq <= n)
    && (n == 0 || exists k :: 0 <= k < |rs| && rs[k].globalSeq == n)
  }

  lemma {:induction false} GreatestIs(rs: seq<FeedRecord.Record>)
    ensures Greatest(rs, Feed.MaxSeq(rs))
  {
    if rs != [] {
      var init := rs[..|rs| - 1];
      GreatestIs(init);
      assert forall k :: 0 <= k < |init| ==> init[k] == rs[k];
    }
  }

  /** Whatever a file holds, opening it yields the records of the lines that
      hold one, in order, and takes up after the greatest of their numbers. */
  lemma OpenedExactly(disk: Bytes) returns (at: seq<nat>)
    ensures var s := Feed.Opened(disk);
      && Drawn(Split(disk, '\n'), FeedLine, s.records, at)
      && Greatest(s.records, s.globalSeq)
      && (s.needNewline <==> disk != "" && disk[|disk| - 1] != '\n')
  {
    hide Split, DecodeAll, Drawn, FeedLine, Feed.DecodeLine;
    forall line
      ensures |Feed.DecodeLine(line)| <= 1 && forall r :: FeedLine(line, r) <==> Feed.DecodeLine(line) == [r]
    {
      FeedLineIs(line);
    }
    at := DrawnFrom(Split(disk, '\n'), Feed.DecodeLine, FeedLine);
    GreatestIs(Feed.Recovered(disk));
  }

  // ---------------------------------------------------- the reservation file

  ghost predicate EntryFits(m: Member) { m.key == "key" || m.key == "id" ==> IsText(m.value) }

  function EntryOf(ms: seq<Member>): Idempotency.Entry { Idempotency.Entry(TextAt(ms, "key"), TextAt(ms, "id")) }

  lemma {:induction false} EntrySnoc(e: Idempotency.Entry, ms: seq<Member>, m: Member)
    ensures Idempotency.ApplyAll(e, ms + [m]) ==
      match Idempotency.ApplyAll(e, ms) case None => None case Some(e') => Idempotency.Apply(e', m)
    decreases |ms|
  {
    hide Idempotency.Apply;
    if ms == [] {
      assert (ms + [m])[1..] == [];
    } else {
      assert (ms + [m])[1..] == ms[1..] + [m];
      match Idempotency.Apply(e, ms[0])
      case None =>
      case Some(e') => EntrySnoc(e', ms[1..], m);
    }
  }

  lemma {:induction false} EntryIs(ms: seq<Member>)
    ensures Idempotency.ApplyAll(Idempotency.Entry("", ""), ms) ==
      if forall k :: 0 <= k < |ms| ==> EntryFits(ms[k]) then Some(EntryOf(ms)) else None
    decreases |ms|
  {
    hide TextAt;
    if ms == [] {
      NoMembers();
    } else {
      var init, last := ms[..|ms| - 1], ms[|ms| - 1];
      assert ms == init + [last];
      EntryIs(init);
      EntrySnoc(Idempotency.Entry("", ""), init, last);
      TextSnoc(init, last, "key");
      TextSnoc(init, last, "id");
    }
  }

  /** A line without the one carriage return it may end in. */
  ghost predicate Bare(line: string, t: string) {
    if line != "" && line[|line| - 1] == '\r' then line == t + "\r" else line == t
  }

  lemma BareIs(line: string)
    ensures forall t :: Bare(line, t) <==> t == Idempotency.DropReturn(line)
  {
    var t := Idempotency.DropReturn(line);
    if line != "" && line[|line| - 1] == '\r' {
      assert t + "\r" == line;
      forall u | line == u + "\r"
        ensures u == t
      {
        assert (u + "\r")[..|u|] == u;
      }
    }
  }

  /** The line reserves a key: an object of strings under two names, the key not
      empty. */
  ghost predicate KeyLine(line: string, e: Idempotency.Entry) {
    e.key != "" && exists t ::
      && Bare(line, t) && Parse(t).Some? && Parse(t).value.Obj? && e == EntryOf(Parse(t).value.members)
      && forall k :: 0 <= k < |Parse(t).value.members| ==> EntryFits(Parse(t).value.members[k])
  }

  lemma KeyLineIs(line: string)
    ensures forall e :: KeyLine(line, e) <==> Idempotency.DecodeLine(line) == [e]
    ensures |Idempotency.DecodeLine(line)| <= 1
  {
    hide Bare, Parse, EntryFits, EntryOf, Idempotency.ApplyAll, Idempotency.DropReturn;
    BareIs(line);
    var t := Idempotency.DropReturn(line);
    if Parse(t).Some? && Parse(t).value.Obj? {
      EntryIs(Parse(t).value.members);
    }
    NothingParses();
  }

  lemma NothingParses()
    ensures Parse("").None?
  {}

  /** The id of the last entry under a key. */
  ghost predicate LastUnder(es: seq<Idempotency.Entry>, key: string, id: string) {
    exists k ::
      && 0 <= k < |es| && es[k] == Idempotency.Entry(key, id)
      && forall j :: k < j < |es| ==> es[j].key != key
  }

  lemma {:induction false} LastIs(es: seq<Idempotency.Entry>, key: string)
    ensures key in Idempotency.ToMap(es) <==> exists k :: 0 <= k < |es| && es[k].key == key
    ensures key in Idempotency.ToMap(es) ==> LastUnder(es, key, Idempotency.ToMap(es)[key])
  {
    if es != [] {
      var init, last := es[..|es| - 1], es[|es| - 1];
      assert es == init + [last];
      LastIs(init, key);
      if last.key == key {
        assert es[|es| - 1] == Idempotency.Entry(key, last.id);
      } else if key in Idempotency.ToMap(init) {
        var k :| 0 <= k < |init| && init[k] == Idempotency.Entry(key, Idempotency.ToMap(init)[key])
                 && forall j :: k < j < |init| ==> init[j].key != key;
        assert es[k] == init[k] && forall j :: k < j < |es| - 1 ==> es[j] == init[j];
      }
    }
  }

  /** Whatever a file holds, the keys reserved after opening it are those of
      the lines that reserve one, each for the intent of its last such line;
      the empty key is never among them. */
  lemma ReservedExactly(disk: Bytes) returns (es: seq<Idempotency.Entry>, at: seq<nat>)
    ensures Drawn(Split(disk, '\n'), KeyLine, es, at)
    ensures var s := Idempotency.Opened(disk);
      && (forall key :: key in s.reserved <==> exists k :: 0 <= k < |es| && es[k].key == key)
      && (forall key :: key in s.reserved ==> LastUnder(es, key, s.reserved[key]))
      && "" !in s.reserved
      && (s.needsNL <==> disk != "" && disk[|disk| - 1] != '\n')
  {
    hide Split, DecodeAll, KeyLine, Idempotency.DecodeLine, Idempotency.ToMap, LastUnder;
    forall line
      ensures |Idempotency.DecodeLine(line)| <= 1
      ensures forall e :: KeyLine(line, e) <==> Idempotency.DecodeLine(line) == [e]
    {
      KeyLineIs(line);
    }
    es := Recover(disk, Idempotency.DecodeLine);
    at := DrawnFrom(Split(disk, '\n'), Idempotency.DecodeLine, KeyLine);
    forall key: string
      ensures key in Idempotency.ToMap(es) <==> exists k :: 0 <= k < |es| && es[k].key == key
      ensures key in Idempotency.ToMap(es) ==> LastUnder(es, key, Idempotency.ToMap(es)[key])
    {
      LastIs(es, key);
    }
    NoneEmpty(Split(disk, '\n'), es, at);
  }

  lemma NoneEmpty(lines: seq<string>, es: seq<Idempotency.Entry>, at: seq<nat>)
    requires Drawn(lines, KeyLine, es, at)
    ensures forall k :: 0 <= k < |es| ==> es[k].key != ""
  {
    forall k | 0 <= k < |es|
      ensures es[k].key != ""
    {
      assert KeyLine(lines[at[k]], es[k]);
    }
  }
}
