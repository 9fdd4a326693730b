// What the examiner reads from a feed file, line by line, and what it reports
// about the lines it cannot use.

module FeedFile {
  import opened Text
  import opened Hashing
  import opened Json
  import opened Lines
  import opened VerifierInput
  import V = Verifier
  import Feed
  import FeedRecord
  import JsonProofs
  import Seqs

  // ---------------------------------------------------- one line, in plain terms

  /** A line without the carriage returns and newlines at its end. */
  ghost predicate Trims(line: string, t: string) {
    && t <= line && (forall k :: |t| <= k < |line| ==> line[k] == '\n' || line[k] == '\r')
    && (t != "" ==> t[|t| - 1] != '\n' && t[|t| - 1] != '\r')
  }

  lemma {:induction false} TrimIs(line: string)
    ensures Trims(line, Feed.Trim(line))
    ensures forall t :: Trims(line, t) ==> t == Feed.Trim(line)
  {
    if line != "" && (line[|line| - 1] == '\n' || line[|line| - 1] == '\r') {
      var init := line[..|line| - 1];
      TrimIs(init);
      forall t | Trims(line, t)
        ensures t == Feed.Trim(line)
      {
        assert t != line;
        assert forall k :: |t| <= k < |init| ==> init[k] == line[k];
        assert t <= init;
        assert Trims(init, t);
      }
    } else {
      forall t | Trims(line, t)
        ensures t == line
      {
        if line != "" {
          var last := line[|line| - 1];
          assert |t| == |line|;
        }
      }
    }
  }

  /** The last member under this name has this value. */
  ghost predicate Holds(ms: seq<Member>, name: string, v: Value) {
    exists k :: 0 <= k < |ms| && ms[k] == Member(name, v) && forall j :: k < j < |ms| ==> ms[j].key != name
  }

  ghost predicate Absent(ms: seq<Member>, name: string) { forall k :: 0 <= k < |ms| ==> ms[k].key != name }

  /** The integer literal `n` stands under this name. */
  ghost predicate HoldsInt(ms: seq<Member>, name: string, n: nat) {
    exists text :: Holds(ms, name, Num(text)) && Atoi(text) == Some(n)
  }

  /** The string `s` stands under this name; an absent or null one is empty. */
  ghost predicate HoldsText(ms: seq<Member>, name: string, s: string) {
    Holds(ms, name, Str(s)) || (s == "" && (Absent(ms, name) || Holds(ms, name, Null)))
  }

  /** The object is this record. */
  ghost predicate IsRecord(ms: seq<Member>, r: VRecord) {
    && HoldsInt(ms, "seq", r.seqNo) && r.seqNo >= 1 && HoldsInt(ms, "intent_seq", r.clock)
    && HoldsText(ms, "intent_id", r.intentId) && r.intentId != "" && HoldsText(ms, "type", r.typ) && r.typ != ""
    && HoldsText(ms, "detail", r.detail) && HoldsText(ms, "idempotency_key", r.key)
    && HoldsText(ms, "rule_artifact_hash", r.ruleHash) && HoldsText(ms, "intent_spec_hash", r.specHash)
    && HoldsText(ms, "trajectory_hash", r.hash)
  }

  /** Not blank, and neither a JSON object nor null. */
  ghost predicate Garbled(line: string) {
    exists t :: Trims(line, t) && t != "" && (Parse(t).Some? ==> !Parse(t).value.Obj? && !Parse(t).value.Null?)
  }

  /** The line holds this record. */
  ghost predicate Carries(line: string, r: VRecord) {
    exists t ::
      Trims(line, t) && t != "" && Parse(t).Some? && Parse(t).value.Obj? && IsRecord(Parse(t).value.members, r)
  }

  /** A JSON null, or an object that is no record. */
  ghost predicate Misshapen(line: string) {
    exists t :: Trims(line, t) && t != "" && Parse(t).Some? &&
      (Parse(t).value.Null? || (Parse(t).value.Obj? && forall r :: !IsRecord(Parse(t).value.members, r)))
  }

  // ---------------------------------------------------- reading one object

  lemma {:induction false} LookupIs(ms: seq<Member>, name: string)
    ensures match Lookup(ms, name)
      case None => Absent(ms, name)
      case Some(v) => Holds(ms, name, v)
  {
    if ms != [] && ms[|ms| - 1].key != name {
      var init := ms[..|ms| - 1];
      LookupIs(init, name);
      match Lookup(init, name)
      case None =>
        assert forall k :: 0 <= k < |init| ==> init[k] == ms[k];
      case Some(v) =>
        var k :| 0 <= k < |init| && init[k] == Member(name, v) && forall j :: k < j < |init| ==> init[j].key != name;
        assert ms[k] == Member(name, v);
        assert forall j :: k < j < |init| ==> ms[j] == init[j];
    } else if ms != [] {
      assert ms[|ms| - 1] == Member(name, ms[|ms| - 1].value);
    }
  }

  lemma OneValue(ms: seq<Member>, name: string, v: Value)
    requires Holds(ms, name, v)
    ensures Lookup(ms, name) == Some(v)
  {
    hide Lookup;
    LookupIs(ms, name);
    var k :| 0 <= k < |ms| && ms[k] == Member(name, v) && forall j :: k < j < |ms| ==> ms[j].key != name;
    if Lookup(ms, name).Some? {
      var u := Lookup(ms, name).value;
      var l :| 0 <= l < |ms| && ms[l] == Member(name, u) && forall j :: l < j < |ms| ==> ms[j].key != name;
    }
  }

  lemma IntIs(ms: seq<Member>, name: string, min: nat)
    ensures forall n: nat :: (HoldsInt(ms, name, n) && n >= min) <==> IntField(ms, name, min) == Some(n)
  {
    hide Lookup, Holds, Atoi;
    LookupIs(ms, name);
    forall n: nat
      ensures (HoldsInt(ms, name, n) && n >= min) <==> IntField(ms, name, min) == Some(n)
    {
      if HoldsInt(ms, name, n) {
        var text :| Holds(ms, name, Num(text)) && Atoi(text) == Some(n);
        OneValue(ms, name, Num(text));
      }
    }
  }

  lemma TextIs(ms: seq<Member>, name: string)
    ensures forall s :: HoldsText(ms, name, s) <==> StrField(ms, name) == Some(s)
  {
    hide Lookup, Holds, Absent;
    LookupIs(ms, name);
    forall s
      ensures HoldsText(ms, name, s) <==> StrField(ms, name) == Some(s)
    {
      if Holds(ms, name, Str(s)) {
        OneValue(ms, name, Str(s));
      }
      if Holds(ms, name, Null) {
        OneValue(ms, name, Null);
      }
      NotBoth(ms, name);
    }
  }

  lemma NotBoth(ms: seq<Member>, name: string)
    ensures Absent(ms, name) ==> Lookup(ms, name) == None
  {
    hide Lookup;
    LookupIs(ms, name);
  }

  /** `Shape` reads the record the object is, if it is one. */
  lemma ShapeIs(ms: seq<Member>)
    ensures forall r :: IsRecord(ms, r) <==> Shape(ms) == Good(r)
    ensures !Shape(ms).Unparseable?
  {
    hide HoldsInt, HoldsText, IntField, StrField;
    IntIs(ms, "seq", 1);
    IntIs(ms, "intent_seq", 0);
    TextIs(ms, "intent_id");
    TextIs(ms, "type");
    TextIs(ms, "detail");
    TextIs(ms, "idempotency_key");
    TextIs(ms, "rule_artifact_hash");
    TextIs(ms, "intent_spec_hash");
    TextIs(ms, "trajectory_hash");
    forall r
      ensures IsRecord(ms, r) <==> Shape(ms) == Good(r)
    {}
  }

  /** What a line is to the reader, in plain terms. */
  lemma LineIs(line: string)
    ensures var t := Feed.Trim(line);
      && (Garbled(line) <==> t != "" && ParseLine(t).Unparseable?)
      && (Misshapen(line) <==> t != "" && ParseLine(t).BadShape?)
      && (forall r :: Carries(line, r) <==> t != "" && ParseLine(t) == Good(r))
  {
    hide Trims, Parse, Shape, IsRecord, Feed.Trim;
    TrimIs(line);
    var t := Feed.Trim(line);
    if Parse(t).Some? && Parse(t).value.Obj? {
      ShapeIs(Parse(t).value.members);
    }
  }

  // ---------------------------------------------------- the findings of a file

  /** `f` reports line `n`, counted from 1. */
  ghost predicate Reports(lines: seq<string>, n: nat, f: Finding) {
    && 1 <= n <= |lines|
    && ( || (f == Finding("feed", Unverifiable, "unparseable-line:" + Itoa(n)) && n < |lines| && Garbled(lines[n - 1]))
         || (f == Finding("feed", Refuted, "bad-record:" + Itoa(n)) && Misshapen(lines[n - 1])))
  }

  ghost predicate Faulty(lines: seq<string>, n: nat) {
    1 <= n <= |lines| && (Misshapen(lines[n - 1]) || (n < |lines| && Garbled(lines[n - 1])))
  }

  /** The findings are those of the faulty lines up to `n`, one each, in order. */
  ghost predicate Located(lines: seq<string>, n: nat, fs: seq<Finding>, at: seq<nat>) {
    && |at| == |fs| && Ascending(at, n + 1)
    && (forall k :: 0 <= k < |fs| ==> Reports(lines, at[k], fs[k]))
    && forall m :: 1 <= m <= n && Faulty(lines, m) ==> m in at
  }

  lemma OneLine(lines: seq<string>, n: nat)
    requires 1 <= n <= |lines|
    ensures var fs := LineFindings(lines[n - 1], n, n == |lines|);
      && |fs| == (if Faulty(lines, n) then 1 else 0)
      && (Faulty(lines, n) ==> Reports(lines, n, fs[0]))
  {
    hide ParseLine, Feed.Trim, Garbled, Misshapen, Carries, Itoa;
    LineIs(lines[n - 1]);
  }

  lemma FindingsStep(lines: seq<string>, n: nat, fs: seq<Finding>, at: seq<nat>, more: seq<Finding>)
    requires 1 <= n <= |lines| && Located(lines, n - 1, fs, at)
    requires |more| == (if Faulty(lines, n) then 1 else 0) && (Faulty(lines, n) ==> Reports(lines, n, more[0]))
    ensures Located(lines, n, fs + more, at + (if Faulty(lines, n) then [n] else []))
  {
    hide Reports, Faulty;
    var at' := at + (if Faulty(lines, n) then [n] else []);
    assert forall m :: m in at ==> m in at';
    assert Faulty(lines, n) ==> n in at';
  }

  lemma {:induction false} FindingsLocated(lines: seq<string>, n: nat) returns (at: seq<nat>)
    requires n <= |lines|
    ensures Located(lines, n, FindingsUpTo(lines, n), at)
  {
    hide LineFindings, Reports, Faulty;
    if n == 0 {
      return [];
    }
    hide Located;
    var before := FindingsLocated(lines, n - 1);
    OneLine(lines, n);
    FindingsStep(lines, n, FindingsUpTo(lines, n - 1), before, LineFindings(lines[n - 1], n, n == |lines|));
    at := before + (if Faulty(lines, n) then [n] else []);
  }

  /** The feed findings of a file are one for each faulty line, in line order:
      UNVERIFIABLE for a line that is neither blank nor a JSON object or null,
      unless it is the last; REFUTED for a null or an object that is no record. */
  lemma FindingsExactly(raw: Bytes) returns (at: seq<nat>)
    ensures var lines := Split(raw, '\n'); Located(lines, |lines|, FileFindings(lines), at)
  {
    hide Split, Located;
    at := FindingsLocated(Split(raw, '\n'), |Split(raw, '\n')|);
  }

  // ---------------------------------------------------- the records of a file

  /** The records are those of the lines that carry one, one each, in order. */
  lemma RecordsExactly(raw: Bytes) returns (at: seq<nat>)
    ensures Drawn(Split(raw, '\n'), Carries, Recover(raw, GoodOn), at)
  {
    hide Split, Drawn, DecodeAll, Carries, ParseLine, Feed.Trim;
    forall line
      ensures |GoodOn(line)| <= 1 && forall r :: Carries(line, r) <==> GoodOn(line) == [r]
    {
      LineIs(line);
    }
    at := DrawnFrom(Split(raw, '\n'), GoodOn, Carries);
  }

  // ---------------------------------------------------- a torn line in mid-file

  /** A line that is neither blank nor JSON of the right kind is reported at its
      number, unless it is the last, and keeps the report from VERIFIED. */
  lemma GarbledReported(h: Digest, raw: Bytes, n: nat)
    requires var lines := Split(raw, '\n'); 1 <= n < |lines| && Garbled(lines[n - 1])
    ensures var rep := V.ReportOn(h, FileFindings(Split(raw, '\n')), Recover(raw, GoodOn));
      && Finding("feed", Unverifiable, "unparseable-line:" + Itoa(n)) in rep.feed
      && rep.overall != Verified
  {
    hide Split, Garbled, Recover, V.IntentFindings, V.Order, V.NumberFindings, V.KeyFindings, Itoa, FileFindings,
         Located;
    var lines := Split(raw, '\n');
    var at := FindingsExactly(raw);
    Found(lines, FileFindings(lines), at, n);
    var rep := V.ReportOn(h, FileFindings(lines), Recover(raw, GoodOn));
    var f := Finding("feed", Unverifiable, "unparseable-line:" + Itoa(n));
    assert f in rep.feed;
    var k :| 0 <= k < |rep.feed| && rep.feed[k] == f;
    assert (rep.feed + rep.intents)[k] == f;
  }

  /** What a crash leaves of a write is such a line, once anything is left. */
  lemma TornIsGarbled(r: FeedRecord.Record, p: Bytes)
    requires p < FeedRecord.Marshal(r) && p != ""
    ensures Garbled(p) && '\n' !in p
  {
    hide Parse, FeedRecord.Members, PrintObject, Feed.Trim;
    FeedRecord.MembersAreFields(r);
    JsonProofs.ObjectOneLine(FeedRecord.Members(r));
    JsonProofs.ObjectPrefixFails(FeedRecord.Members(r), p);
    var line := FeedRecord.Marshal(r);
    assert forall k :: 0 <= k < |p| ==> p[k] == line[k] && line[k] in line;
    assert Trims(p, p);
  }

  /** So a torn fragment that the next append has terminated is reported at its
      line number: the examiner abstains on a file repaired in its middle. */
  lemma TornReported(h: Digest, before: Bytes, r: FeedRecord.Record, fragment: Bytes, after: Bytes)
    requires fragment < FeedRecord.Marshal(r) && fragment != "" && (before == "" || before[|before| - 1] == '\n')
    ensures var raw := before + fragment + "\n" + after;
      var rep := V.ReportOn(h, FileFindings(Split(raw, '\n')), Recover(raw, GoodOn));
      && Finding("feed", Unverifiable, "unparseable-line:" + Itoa(|Split(before, '\n')|)) in rep.feed
      && rep.overall != Verified
  {
    hide Split, Garbled, V.ReportOn, FileFindings, FeedRecord.Marshal, Recover, Itoa;
    TornIsGarbled(r, fragment);
    FragmentLine(before, fragment, after);
    GarbledReported(h, before + fragment + "\n" + after, |Split(before, '\n')|);
  }

  lemma FragmentLine(before: Bytes, fragment: string, after: Bytes)
    requires '\n' !in fragment && (before == "" || before[|before| - 1] == '\n')
    ensures var lines := Split(before + fragment + "\n" + after, '\n');
      var n := |Split(before, '\n')|; 1 <= n < |lines| && lines[n - 1] == fragment
  {
    hide Split;
    var rest := fragment + "\n" + after;
    SplitFirst(fragment, '\n', after);
    assert rest == fragment + ['\n'] + after;
    if before == "" {
      SplitAbsent("", '\n');
      assert before + fragment + "\n" + after == rest;
    } else {
      var init := before[..|before| - 1];
      assert before == init + ['\n'] + "" && before + fragment + "\n" + after == init + ['\n'] + rest;
      SplitAppend(init, '\n', "");
      SplitAbsent("", '\n');
      SplitAppend(init, '\n', rest);
      assert (Split(init, '\n') + ([fragment] + Split(after, '\n')))[|Split(init, '\n')|] == fragment;
    }
  }

  lemma Found(lines: seq<string>, fs: seq<Finding>, at: seq<nat>, n: nat)
    requires Located(lines, |lines|, fs, at) && 1 <= n < |lines| && Garbled(lines[n - 1])
    ensures Finding("feed", Unverifiable, "unparseable-line:" + Itoa(n)) in fs
  {
    hide Itoa, Garbled, Misshapen;
    assert Faulty(lines, n);
    var k :| 0 <= k < |at| && at[k] == n;
    assert Reports(lines, n, fs[k]);
    NotBothFaults(lines[n - 1]);
    assert fs[k] in fs;
  }

  lemma NotBothFaults(line: string)
    ensures !(Garbled(line) && Misshapen(line))
  {
    hide Feed.Trim, ParseLine;
    LineIs(line);
  }

  // ---------------------------------------------------- checks over the whole feed

  /** Numbers run 1, 2, ... in file order, or the first that does not is
      reported. */
  lemma NumbersExactly(recs: seq<VRecord>)
    ensures var fs := V.NumberFindings(recs, 0);
      if forall k :: 0 <= k < |recs| ==> recs[k].seqNo == k + 1 then fs == []
      else GapReported(recs, fs)
  {
    hide Itoa;
    NumbersFrom(recs, 0);
  }

  ghost predicate FirstWrongNumber(recs: seq<VRecord>, k: int) {
    0 <= k < |recs| && recs[k].seqNo != k + 1 && forall j :: 0 <= j < k ==> recs[j].seqNo == j + 1
  }

  ghost predicate GapReported(recs: seq<VRecord>, fs: seq<Finding>) {
    exists k ::
      && FirstWrongNumber(recs, k)
      && fs == [Finding("feed", Refuted, "seq-gap:" + Itoa(recs[k].seqNo) + ":" + Itoa(k + 1))]
  }

  lemma {:induction false} NumbersFrom(recs: seq<VRecord>, from: nat)
    requires from <= |recs| && forall j :: 0 <= j < from ==> recs[j].seqNo == j + 1
    ensures var fs := V.NumberFindings(recs, from);
      if forall k :: 0 <= k < |recs| ==> recs[k].seqNo == k + 1 then fs == []
      else GapReported(recs, fs)
    decreases |recs| - from
  {
    hide Itoa;
    if from < |recs| {
      if recs[from].seqNo == from + 1 {
        NumbersFrom(recs, from + 1);
      } else {
        assert FirstWrongNumber(recs, from);
      }
    }
  }

  /** An ACHIEVED record whose key an earlier one was granted. */
  ghost predicate RepeatsKey(recs: seq<VRecord>, k: nat) {
    && k < |recs| && recs[k].typ == "ACHIEVED" && recs[k].key != ""
    && exists j :: 0 <= j < k && recs[j].typ == "ACHIEVED" && recs[j].key == recs[k].key
  }

  ghost predicate KeysLocated(recs: seq<VRecord>, n: nat, fs: seq<Finding>, at: seq<nat>)
    requires n <= |recs|
  {
    && |at| == |fs| && Ascending(at, n)
    && (forall k :: 0 <= k < |fs| ==> RepeatsKey(recs, at[k]))
    && (forall k :: 0 <= k < |fs| ==> fs[k] == Finding("feed", Refuted, "duplicate-achieved-key:" + recs[at[k]].key))
    && forall k: nat :: k < n && RepeatsKey(recs, k) ==> k in at
  }

  lemma KeysStep(recs: seq<VRecord>, n: nat, fs: seq<Finding>, at: seq<nat>)
    requires n < |recs| && KeysLocated(recs, n, fs, at)
    ensures var f := Finding("feed", Refuted, "duplicate-achieved-key:" + recs[n].key);
      if RepeatsKey(recs, n) then KeysLocated(recs, n + 1, fs + [f], at + [n])
      else KeysLocated(recs, n + 1, fs, at)
  {
    hide RepeatsKey;
    assert forall k :: k in at ==> k in at + [n];
    assert n in at + [n];
  }

  /** Every grant of a key already granted is reported, in file order. */
  lemma {:induction false} KeysExactly(recs: seq<VRecord>, n: nat) returns (at: seq<nat>)
    requires n <= |recs|
    ensures KeysLocated(recs, n, V.KeyFindings(recs[..n]), at)
    decreases n
  {
    hide V.KeyFindings, V.GrantedKeys, RepeatsKey;
    if n == 0 {
      V.NoKeys();
      assert recs[..0] == [];
      return [];
    }
    hide KeysLocated;
    var before := KeysExactly(recs, n - 1);
    assert recs[..n] == recs[..n - 1] + [recs[n - 1]];
    V.KeysSnoc(recs[..n - 1], recs[n - 1]);
    RepeatIs(recs, n - 1);
    KeysStep(recs, n - 1, V.KeyFindings(recs[..n - 1]), before);
    at := before + (if RepeatsKey(recs, n - 1) then [n - 1] else []);
    assert before + [] == before;
  }

  lemma RepeatIs(recs: seq<VRecord>, n: nat)
    requires n < |recs|
    ensures RepeatsKey(recs, n) <==> V.Grants(recs[n]) && recs[n].key in V.GrantedKeys(recs[..n])
  {
    if RepeatsKey(recs, n) {
      var j :| 0 <= j < n && recs[j].typ == "ACHIEVED" && recs[j].key == recs[n].key;
      assert recs[..n][j] == recs[j] && recs[j] in recs[..n] && V.Grants(recs[j]);
    }
    if V.Grants(recs[n]) && recs[n].key in V.GrantedKeys(recs[..n]) {
      var r :| r in recs[..n] && V.Grants(r) && r.key == recs[n].key;
      var j :| 0 <= j < n && recs[..n][j] == r;
      assert recs[j] == r;
    }
  }

  /** The first record of its intent. */
  ghost predicate Appears(recs: seq<VRecord>, k: nat) {
    k < |recs| && forall j :: 0 <= j < k ==> recs[j].intentId != recs[k].intentId
  }

  /** The intents are those of the records that are the first of theirs, one
      each, in order. */
  ghost predicate OrderLocated(recs: seq<VRecord>, n: nat, ids: seq<string>, at: seq<nat>) {
    && |at| == |ids| && Ascending(at, n)
    && (forall k :: 0 <= k < |ids| ==> Appears(recs, at[k]) && ids[k] == recs[at[k]].intentId)
    && forall k: nat :: k < n && Appears(recs, k) ==> k in at
  }

  lemma OrderStep(recs: seq<VRecord>, n: nat, ids: seq<string>, at: seq<nat>)
    requires n < |recs| && OrderLocated(recs, n, ids, at)
    ensures if Appears(recs, n) then OrderLocated(recs, n + 1, ids + [recs[n].intentId], at + [n])
            else OrderLocated(recs, n + 1, ids, at)
  {
    hide Appears;
    assert forall k :: k in at ==> k in at + [n];
    assert n in at + [n];
  }

  /** Intents are reported once each, in the order of their first records. */
  lemma {:induction false} OrderExactly(recs: seq<VRecord>, n: nat) returns (at: seq<nat>)
    requires n <= |recs|
    ensures OrderLocated(recs, n, V.Order(recs[..n]), at)
    decreases n
  {
    hide V.Order, Appears;
    if n == 0 {
      V.NothingIndexed();
      assert recs[..0] == [];
      return [];
    }
    hide OrderLocated;
    var before := OrderExactly(recs, n - 1);
    assert recs[..n] == recs[..n - 1] + [recs[n - 1]];
    V.OrderSnoc(recs[..n - 1], recs[n - 1]);
    AppearsIs(recs, n - 1);
    OrderStep(recs, n - 1, V.Order(recs[..n - 1]), before);
    at := before + (if Appears(recs, n - 1) then [n - 1] else []);
    assert before + [] == before;
  }

  lemma AppearsIs(recs: seq<VRecord>, n: nat)
    requires n < |recs|
    ensures Appears(recs, n) <==> recs[n].intentId !in V.Order(recs[..n])
  {
    hide V.Order;
    assert forall j :: 0 <= j < n ==> recs[..n][j] == recs[j];
  }

  // ---------------------------------------------------- the whole report

  lemma {:induction false} IntentFindingsAt(h: Digest, recs: seq<VRecord>, ids: seq<string>)
    requires forall id :: id in ids ==> id in V.Order(recs)
    ensures var fs := V.IntentFindings(h, recs, ids);
      && |fs| == |ids|
      && forall k :: 0 <= k < |ids| ==> V.Of(recs, ids[k]) != [] && fs[k] == V.Examine(h, ids[k], V.Of(recs, ids[k]))
    decreases |ids|
  {
    hide V.Examine, V.Order, V.Of;
    if ids != [] {
      V.OfOrdered(recs, ids[|ids| - 1]);
      IntentFindingsAt(h, recs, ids[..|ids| - 1]);
    }
  }

  /** The report on a file: what is said of its lines, one finding if nothing
      could be read, what is said of numbers and keys; then for every intent
      with a record, in order of appearance, the contract's finding on exactly
      its records; REFUTED if any of these is, VERIFIED if all of them are. */
  lemma ReportExactly(h: Digest, raw: Bytes)
    ensures var recs := Recover(raw, GoodOn);
      var rep, ids := V.ReportOn(h, FileFindings(Split(raw, '\n')), recs), V.Order(recs);
      && rep.feed == FileFindings(Split(raw, '\n'))
                     + (if recs == [] then [Finding("feed", Unverifiable, "empty")] else [])
                     + V.NumberFindings(recs, 0) + V.KeyFindings(recs)
      && |rep.intents| == |ids|
      && (forall k :: 0 <= k < |ids| ==>
            && V.Of(recs, ids[k]) != []
            && (forall r :: r in V.Of(recs, ids[k]) <==> r in recs && r.intentId == ids[k])
            && V.Expected(h, ids[k], V.Sorted(V.Of(recs, ids[k])), rep.intents[k]))
      && (rep.overall == Refuted <==> exists f :: f in rep.feed + rep.intents && f.verdict == Refuted)
      && (rep.overall == Verified <==> forall f :: f in rep.feed + rep.intents ==> f.verdict == Verified)
  {
    hide Split, FileFindings, Recover, V.NumberFindings, V.KeyFindings, V.IntentFindings, V.Order, V.Of, V.Expected,
         V.Sorted, V.Examined;
    var recs := Recover(raw, GoodOn);
    var ids := V.Order(recs);
    IntentFindingsAt(h, recs, ids);
    forall k | 0 <= k < |ids|
      ensures forall r :: r in V.Of(recs, ids[k]) <==> r in recs && r.intentId == ids[k]
      ensures V.Of(recs, ids[k]) != [] && V.Expected(h, ids[k], V.Sorted(V.Of(recs, ids[k])),
                                                     V.IntentFindings(h, recs, ids)[k])
    {
      OfMembers(recs, ids[k]);
      V.ExaminedAsExpected(h, ids[k], V.Sorted(V.Of(recs, ids[k])));
    }
    var rep := V.ReportOn(h, FileFindings(Split(raw, '\n')), recs);
    var fs := rep.feed + rep.intents;
    assert forall k :: 0 <= k < |fs| ==> fs[k] in fs;
  }

  lemma OfMembers(recs: seq<VRecord>, id: string)
    ensures forall r :: r in V.Of(recs, id) <==> r in recs && r.intentId == id
  {
    Seqs.FilterMembers(recs, V.OfIntent(id));
  }
}
