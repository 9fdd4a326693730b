// The second examiner (verifier/pyverifier/verify.py): its records are
// dictionaries whose optional fields may be absent, and its loops are its own.

module PyVerifier {
  import opened Text
  import opened Hashing
  import opened Sorting
  import opened VerifierInput
  import opened Verifier
  import Audit

  /** A decoded record that passed `_shape_ok`. */
  datatype Dict = Dict(
    seqNo: nat, clock: nat, intentId: string, typ: string, detail: Option<string>, key: Option<string>,
    ruleHash: Option<string>, specHash: Option<string>, hash: Option<string>)

  /** `r.get(field, "")`. */
  function Get(field: Option<string>): string { if field.Some? then field.value else "" }

  /** The same record under the Go declaration. */
  function Plain(d: Dict): VRecord {
    VRecord(d.seqNo, d.clock, d.intentId, d.typ, Get(d.detail), Get(d.key),
            Get(d.ruleHash), Get(d.specHash), Get(d.hash))
  }

  function PlainAll(ds: seq<Dict>): (rs: seq<VRecord>)
    ensures |rs| == |ds|
  {
    seq(|ds|, k requires 0 <= k < |ds| => Plain(ds[k]))
  }

  function DictClock(): Dict -> int { (d: Dict) => d.clock }

  lemma PlainCons(d: Dict, ds: seq<Dict>)
    ensures PlainAll([d] + ds) == [Plain(d)] + PlainAll(ds)
  {}

  lemma {:induction false} InsertPlain(d: Dict, ds: seq<Dict>)
    ensures PlainAll(Insert(d, ds, DictClock())) == Insert(Plain(d), PlainAll(ds), ByClock())
  {
    hide Plain, PlainAll, Insert;
    PlainFields(d);
    if ds == [] {
      InsertNone(d, DictClock());
      InsertNone(Plain(d), ByClock());
      PlainNone();
      PlainCons(d, []);
      assert [d] + [] == [d] && [Plain(d)] + [] == [Plain(d)];
    } else {
      var e, rest := ds[0], ds[1..];
      assert ds == [e] + rest;
      PlainFields(e);
      PlainCons(e, rest);
      InsertStep(d, e, rest, DictClock());
      InsertStep(Plain(d), Plain(e), PlainAll(rest), ByClock());
      if d.clock <= e.clock {
        PlainCons(d, ds);
      } else {
        InsertPlain(d, rest);
        PlainCons(e, Insert(d, rest, DictClock()));
      }
    }
  }

  lemma PlainFields(d: Dict)
    ensures Plain(d).clock == d.clock && Plain(d).typ == d.typ && Plain(d).intentId == d.intentId
    ensures Plain(d).seqNo == d.seqNo && Plain(d).detail == Get(d.detail)
    ensures Plain(d).key == Get(d.key) && Plain(d).specHash == Get(d.specHash)
    ensures Plain(d).hash == Get(d.hash)
  {}

  /** Python's sort and Go's sort arrange corresponding records alike. */
  lemma {:induction false} SortPlain(ds: seq<Dict>)
    ensures PlainAll(Sort(ds, DictClock())) == Sort(PlainAll(ds), ByClock())
  {
    if ds != [] {
      SortPlain(ds[1..]);
      InsertPlain(ds[0], Sort(ds[1..], DictClock()));
      assert PlainAll(ds)[1..] == PlainAll(ds[1..]);
    }
  }

  method TrajectoryHash(h: Digest, recs: seq<Dict>) returns (hash: Bytes)
    ensures hash == Audit.HashOf(h, Events(PlainAll(recs)))
  {
    hide Audit.Field, Itoa;
    var written: Bytes := "";
    for k := 0 to |recs|
      invariant written == Audit.Encode(Events(PlainAll(recs[..k])))
    {
      hide Audit.Encode;
      var r := recs[k];
      var e := Audit.Event(r.clock, r.typ, Get(r.detail));
      assert Events(PlainAll(recs[..k + 1])) == Events(PlainAll(recs[..k])) + [e];
      Audit.EncodeSnoc(Events(PlainAll(recs[..k])), e);
      written := written + (Audit.Field(Itoa(r.clock)) + Audit.Field(r.typ) + Audit.Field(Get(r.detail)));
    }
    assert recs[..|recs|] == recs;
    hash := h(written);
  }

  /** Same finding as the Go examiner on corresponding records. */
  method VerifyIntent(h: Digest, id: string, recs: seq<Dict>) returns (f: Finding)
    requires recs != []
    ensures f == Examine(h, id, PlainAll(recs)) && Expected(h, id, Verifier.Sorted(PlainAll(recs)), f)
  {
    hide Sort, Plain, Examined, Itoa, Expected;
    ExaminedAsExpected(h, id, Verifier.Sorted(PlainAll(recs)));
    SortSorts(recs, DictClock());
    SortPlain(recs);
    var srt := Sort(recs, DictClock());
    ghost var t := PlainAll(srt);
    assert t == Verifier.Sorted(PlainAll(recs));
    var i := 0;
    while i < |srt|
      invariant 0 <= i <= |srt| && FirstGap(t, 0) == FirstGap(t, i)
    {
      PlainFields(srt[i]);
      if srt[i].clock != i {
        GapFinding(h, id, t);
        if i > 0 {
          PlainFields(srt[i - 1]);
        }
        if i > 0 && srt[i].clock == srt[i - 1].clock {
          return Finding(id, Refuted, "intent-seq-dup:" + Itoa(srt[i].clock));
        }
        return Finding(id, Refuted, "intent-seq-gap:" + Itoa(srt[i].clock) + ":" + Itoa(i));
      }
      i := i + 1;
    }
    f := VerifyRest(h, id, srt);
  }

  lemma GapFinding(h: Digest, id: string, t: seq<VRecord>)
    requires t != [] && FirstGap(t, 0) < |t|
    ensures var gap := FirstGap(t, 0);
      Examined(h, id, t) ==
        if gap > 0 && t[gap].clock == t[gap - 1].clock
        then Finding(id, Refuted, "intent-seq-dup:" + Itoa(t[gap].clock))
        else Finding(id, Refuted, "intent-seq-gap:" + Itoa(t[gap].clock) + ":" + Itoa(gap))
  {
    hide Itoa, FirstGap;
  }

  method VerifyRest(h: Digest, id: string, srt: seq<Dict>) returns (f: Finding)
    requires srt != [] && FirstGap(PlainAll(srt), 0) == |srt|
    ensures f == Examined(h, id, PlainAll(srt))
  {
    hide FirstGap, IsKnown, EndsIntent, Itoa, Events, FirstUnknown, FirstHashed, AchievedIn;
    hide Plain, Get;
    ghost var t := PlainAll(srt);
    PlainFields(srt[0]);
    PlainFields(srt[|srt| - 1]);
    if srt[0].typ != "DECLARED" {
      return Finding(id, Refuted, "missing-declared");
    }
    if Get(srt[0].detail) != id {
      return Finding(id, Refuted, "declared-detail-mismatch");
    }
    var early := CheckRecords(id, srt);
    if early.Some? {
      return early.value;
    }
    var last := srt[|srt| - 1];
    if Get(last.hash) == "" {
      return Finding(id, Unverifiable, "no-terminal-hash");
    }
    if !EndsIntent(last.typ) {
      return Finding(id, Refuted, "terminal-type:" + last.typ);
    }
    var achieved := SumAchieved(srt);
    if achieved > 1 {
      return Finding(id, Refuted, "duplicate-achieved");
    }
    if achieved == 1 && last.typ != "ACHIEVED" {
      return Finding(id, Refuted, "achieved-not-terminal");
    }
    if NeedsTrace(last.typ) {
      if Get(last.key) == "" {
        return Finding(id, Refuted, "trace-field-missing:" + last.typ + ":" + "idempotency_key");
      }
      if Get(last.specHash) == "" {
        return Finding(id, Refuted, "trace-field-missing:" + last.typ + ":" + "intent_spec_hash");
      }
    }
    var got := TrajectoryHash(h, srt);
    if got != Get(last.hash) {
      return Finding(id, Refuted, "hash-mismatch");
    }
    return Finding(id, Verified, "");
  }

  /** Known types first, hash placement second, as two passes. */
  method CheckRecords(id: string, srt: seq<Dict>) returns (f: Option<Finding>)
    requires srt != []
    ensures var t := PlainAll(srt); var unknown, hashed := FirstUnknown(t, 0), FirstHashed(t, 0, |t| - 1);
      f == if unknown < |t| then Some(Finding(id, Unverifiable, "unknown-event-type:" + t[unknown].typ))
           else if hashed < |t| - 1
           then Some(Finding(id, Refuted, "hash-on-nonterminal:" + Itoa(t[hashed].clock)))
           else None
  {
    hide IsKnown, Itoa;
    ghost var t := PlainAll(srt);
    for i := 0 to |srt|
      invariant FirstUnknown(t, 0) == FirstUnknown(t, i)
    {
      if !IsKnown(srt[i].typ) {
        return Some(Finding(id, Unverifiable, "unknown-event-type:" + srt[i].typ));
      }
    }
    for i := 0 to |srt| - 1
      invariant FirstHashed(t, 0, |t| - 1) == FirstHashed(t, i, |t| - 1)
    {
      if Get(srt[i].hash) != "" {
        return Some(Finding(id, Refuted, "hash-on-nonterminal:" + Itoa(srt[i].clock)));
      }
    }
    return None;
  }

  method SumAchieved(srt: seq<Dict>) returns (n: nat)
    ensures n == AchievedIn(PlainAll(srt))
  {
    hide PlainAll, Plain;
    ghost var t := PlainAll(srt);
    n := 0;
    for i := 0 to |srt|
      invariant n == AchievedIn(t[..i])
    {
      PlainAt(srt, i);
      assert t[..i + 1][..i] == t[..i];
      if srt[i].typ == "ACHIEVED" {
        n := n + 1;
      }
    }
    assert t[..|srt|] == t;
  }

  /** The whole report on corresponding records is the Go report. */
  method Verify(h: Digest, recs: seq<Dict>, found: seq<Finding>) returns (rep: Report)
    ensures rep == ReportOn(h, found, PlainAll(recs))
  {
    hide FeedFindings, IntentFindings, Order, Plain;
    var feed := CheckFeed(recs, found);
    var ids, groups := Group(recs);
    var intents := CheckIntents(h, recs, ids, groups);
    var overall := Aggregate(feed + intents);
    rep := Report(feed, intents, overall);
  }

  method CheckFeed(recs: seq<Dict>, found: seq<Finding>) returns (feed: seq<Finding>)
    ensures feed == FeedFindings(found, PlainAll(recs))
  {
    hide Itoa, Plain, KeyFindings, GrantedKeys;
    ghost var t := PlainAll(recs);
    feed := found + (if recs == [] then [Finding("feed", Unverifiable, "empty")] else []);
    ghost var opening := feed;
    assert opening == found + (if t == [] then [Finding("feed", Unverifiable, "empty")] else []);
    var i := 0;
    while i < |recs|
      invariant 0 <= i <= |recs| && feed == opening && NumberFindings(t, 0) == NumberFindings(t, i)
    {
      PlainFields(recs[i]);
      if recs[i].seqNo != i + 1 {
        feed := feed + [Finding("feed", Refuted, "seq-gap:" + Itoa(recs[i].seqNo) + ":" + Itoa(i + 1))];
        break;
      }
      i := i + 1;
    }
    assert feed == opening + NumberFindings(t, 0);
    var dups := CheckKeys(recs);
    feed := feed + dups;
  }

  method CheckKeys(recs: seq<Dict>) returns (found: seq<Finding>)
    ensures found == KeyFindings(PlainAll(recs))
  {
    hide KeyFindings, GrantedKeys, Get, PlainAll, Plain;
    ghost var t := PlainAll(recs);
    found := [];
    var seen: set<string> := {};
    NoKeys();
    for i := 0 to |recs|
      invariant found == KeyFindings(t[..i]) && seen == GrantedKeys(t[..i])
    {
      var r := recs[i];
      KeysSnoc(t[..i], t[i]);
      assert t[..i + 1] == t[..i] + [t[i]];
      PlainAt(recs, i);
      if r.typ == "ACHIEVED" && Get(r.key) != "" {
        var key := Get(r.key);
        if key in seen {
          found := found + [Finding("feed", Refuted, "duplicate-achieved-key:" + key)];
        }
        seen := seen + {key};
      }
    }
    assert t[..|recs|] == t;
  }

  lemma PlainAt(ds: seq<Dict>, k: nat)
    requires k < |ds|
    ensures PlainAll(ds)[k] == Plain(ds[k])
    ensures Plain(ds[k]).typ == ds[k].typ && Plain(ds[k]).intentId == ds[k].intentId
    ensures Plain(ds[k]).key == Get(ds[k].key)
  {}

  /** A Python dict of lists: its keys in insertion order, and its values. */
  method Group(recs: seq<Dict>) returns (ids: seq<string>, groups: map<string, seq<Dict>>)
    ensures ids == Order(PlainAll(recs))
    ensures forall id :: id in ids ==> id in groups && PlainAll(groups[id]) == Of(PlainAll(recs), id)
  {
    hide PlainAll, Plain, Of, OfIntent, Order;
    ghost var t := PlainAll(recs);
    ids, groups := [], map[];
    NothingIndexed();
    assert t[..0] == [];
    for k := 0 to |recs|
      invariant Indexed(groups, ids, t[..k])
    {
      hide *;
      var r := recs[k];
      IndexedStep(groups, ids, t[..k], r);
      PlainAt(recs, k);
      assert t[..k + 1] == t[..k] + [t[k]];
      if r.intentId !in groups {
        ids := ids + [r.intentId];
        groups := groups[r.intentId := []];
      }
      groups := groups[r.intentId := groups[r.intentId] + [r]];
    }
    assert t[..|recs|] == t;
  }

  lemma PlainNone()
    ensures PlainAll([]) == []
  {}

  lemma PlainSnoc(ds: seq<Dict>, d: Dict)
    ensures PlainAll(ds + [d]) == PlainAll(ds) + [Plain(d)]
  {}

  /** The dict after the records `t`: ids in first-appearance order, and under
      each id exactly its intent's records. */
  ghost predicate Indexed(groups: map<string, seq<Dict>>, ids: seq<string>, t: seq<VRecord>) {
    && ids == Order(t)
    && (forall id :: id in groups <==> id in ids)
    && (forall id :: id in groups ==> PlainAll(groups[id]) == Of(t, id))
  }

  lemma NothingIndexed()
    ensures Indexed(map[], [], [])
  {}

  lemma IndexedStep(groups: map<string, seq<Dict>>, ids: seq<string>, t: seq<VRecord>, d: Dict)
    requires Indexed(groups, ids, t)
    ensures var id, t' := d.intentId, t + [Plain(d)];
      if id in groups then Indexed(groups[id := groups[id] + [d]], ids, t')
      else Indexed(groups[id := []][id := [] + [d]], ids + [id], t')
  {
    hide Plain, PlainAll, Of, Order;
    var id := d.intentId;
    var existing := if id in groups then groups[id] else [];
    var groups' := groups[id := existing + [d]];
    PlainFields(d);
    PlainSnoc(existing, d);
    PlainNone();
    OrderSnoc(t, Plain(d));
    if id !in groups {
      OfUnordered(t, id);
      assert groups[id := []][id := [] + [d]] == groups';
    }
    forall x | x in groups'
      ensures PlainAll(groups'[x]) == Of(t + [Plain(d)], x)
    {
      OfSnoc(t, Plain(d), x);
    }
  }

  method CheckIntents(h: Digest, ghost recs: seq<Dict>, ids: seq<string>, groups: map<string, seq<Dict>>)
    returns (intents: seq<Finding>)
    requires ids == Order(PlainAll(recs))
    requires forall id :: id in ids ==> id in groups && PlainAll(groups[id]) == Of(PlainAll(recs), id)
    ensures intents == IntentFindings(h, PlainAll(recs), Order(PlainAll(recs)))
  {
    hide Order, Of, Examine, Plain;
    intents := [];
    for k := 0 to |ids|
      invariant intents == IntentFindings(h, PlainAll(recs), ids[..k])
    {
      OfOrdered(PlainAll(recs), ids[k]);
      var f := VerifyIntent(h, ids[k], groups[ids[k]]);
      intents := intents + [f];
      assert ids[..k + 1][..k] == ids[..k];
    }
    assert ids[..|ids|] == ids;
  }

  method Aggregate(fs: seq<Finding>) returns (overall: Verdict)
    ensures overall == Overall(fs)
  {
    overall := Verified;
    for k := 0 to |fs|
      invariant overall == Overall(fs[..k])
    {
      assert fs[..k + 1][..k] == fs[..k];
      if fs[k].verdict == Refuted {
        overall := Refuted;
      } else if fs[k].verdict == Unverifiable && overall != Refuted {
        overall := Unverifiable;
      }
    }
    assert fs[..|fs|] == fs;
  }
}
