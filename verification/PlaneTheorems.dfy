// Safety of the plane over every interleaving and any number of crashes.

module PlaneTheorems {
  import opened Text
  import opened Hashing
  import opened Intents
  import opened Lifecycle
  import opened FeedRecord
  import opened Gate
  import opened GateInvariant
  import opened GateVerified
  import opened Plane
  import opened Seqs
  import opened Lines
  import VI = VerifierInput
  import V = Verifier
  import Feed
  import Idempotency

  // ---------------------------------------------------- one grant per key

  ghost predicate IsGrant(p: State, k: nat) { k < |p.feed.records| && p.feed.records[k].typ == "ACHIEVED" }

  function PositionOf(p: State, k: nat): nat
    requires k < |p.feed.records|
  {
    |Filter(p.feed.records[..k], Feed.OfIntent(p.feed.records[k].intentId))|
  }

  /** An ACHIEVED record is the last record of a run that holds its key. */
  lemma GrantIsLast(h: Digest, p: State, k: nat)
    requires Inv(h, p) && IsGrant(p, k)
    ensures var r := p.feed.records[k];
      && r.intentId in p.runs
      && PositionOf(p, k) == |RecordsOf(p, r.intentId)| - 1
      && Holds(p.runs[r.intentId].snap.pc)
      && r.key == KeyOf(p, r.intentId)
  {
    hide VI.Legible, Feed.Sound, Idempotency.Sound, RunInv, Filter, Stamped, Id, WellResolved;
    var r := p.feed.records[k];
    var id := r.intentId;
    assert RunSound(h, p, id, p.runs[id]);
    FilterAt(p.feed.records, k, Feed.OfIntent(id));
    var a := PositionOf(p, k);
    assert RecordsOf(p, id)[a] == r;
    GrantCloses(h, p.runs[id].job, p.runs[id].snap, RecordsOf(p, id), a);
  }

  lemma GrantCloses(h: Digest, job: Job, s: Snap, rs: seq<Record>, a: nat)
    requires RunInv(h, job, s) && Stamped(rs, s.recs) && a < |rs| && rs[a].typ == "ACHIEVED"
    ensures a == |rs| - 1 && s.pc.Done? && s.pc.terminal == ACHIEVED && rs[a].key == job.intent.key
    ensures job.intent.key != ""
  {
    hide Id, EventsOf, Name, RefusalShape;
    assert rs[a].(globalSeq := 0) == s.recs[a];
    if a < |s.recs| - 1 || !s.pc.Done? {
      GrantNotInterior(h, job, s, a);
    } else {
      assert Closing(h, job, s.pc, s.recs);
      LastKind(h, job, s);
      var kind :| s.recs[a].typ == Name(kind) && Final(kind) && (Traced(kind) ==> kind == s.pc.terminal);
      KindTypes(kind);
      assert kind == ACHIEVED;
    }
  }

  lemma GrantNotInterior(h: Digest, job: Job, s: Snap, a: nat)
    requires RunInv(h, job, s) && a < |s.recs| && (a < |s.recs| - 1 || !s.pc.Done?)
    ensures s.recs[a].typ != "ACHIEVED"
  {
    hide Id, EventsOf, RefusalShape, TerminalOf;
    assert Interior(h, job, s.recs[a]);
  }

  /** Every ACHIEVED record's key is durably reserved, by that very intent:
      a restart recovers the reservation from the file. */
  lemma GrantReserved(h: Digest, p: State, k: nat)
    requires Inv(h, p) && IsGrant(p, k)
    ensures var r, file := p.feed.records[k], Idempotency.Recovered(p.idem.disk);
      r.key in file && file[r.key] == r.intentId
  {
    hide VI.Legible, Feed.Sound, RunInv, Filter, Stamped, Id, WellResolved, Idempotency.Recovered;
    GrantIsLast(h, p, k);
    assert RunSound(h, p, p.feed.records[k].intentId, p.runs[p.feed.records[k].intentId]);
  }

  /** No two ACHIEVED records share a key. */
  lemma OneGrantPerKey(h: Digest, p: State, j: nat, k: nat)
    requires Inv(h, p) && IsGrant(p, j) && IsGrant(p, k) && j < k
    ensures p.feed.records[j].key != p.feed.records[k].key
  {
    hide Inv, Filter, Holds, Id, Idempotency.Recovered;
    GrantIsLast(h, p, j);
    GrantIsLast(h, p, k);
    GrantReserved(h, p, j);
    GrantReserved(h, p, k);
    if p.feed.records[j].intentId == p.feed.records[k].intentId {
      FilterOrder(p.feed.records, j, k, Feed.OfIntent(p.feed.records[j].intentId));
    }
  }

  // ---------------------------------------------------- what the examiner reports

  /** The records of one intent, as the examiner groups them. */
  lemma {:induction false} GroupSeen(rs: seq<Record>, id: string)
    requires VI.AllReadable(rs)
    ensures VI.AllReadable(Filter(rs, Feed.OfIntent(id)))
    ensures V.Of(VI.SeenAll(rs), id) == VI.SeenAll(Filter(rs, Feed.OfIntent(id)))
  {
    hide VI.Readable, V.Of, Filter;
    if rs == [] {
      EmptyGroup(id);
    } else {
      var init, r := rs[..|rs| - 1], rs[|rs| - 1];
      assert rs == init + [r];
      GroupSeen(init, id);
      VI.SeenSnoc(init, r);
      FilterSnoc(init, r, Feed.OfIntent(id));
      V.OfSnoc(VI.SeenAll(init), VI.Seen(r), id);
      var kept := Filter(init, Feed.OfIntent(id));
      if r.intentId == id {
        VI.SeenSnoc(kept, r);
      } else {
        assert kept + [] == kept;
        assert VI.SeenAll(kept) + [] == VI.SeenAll(kept);
      }
    }
  }

  lemma EmptyGroup(id: string)
    ensures Filter<Record>([], Feed.OfIntent(id)) == [] && V.Of([], id) == []
    ensures VI.SeenAll([]) == []
  {}

  /** Accepted once the run's last record is in the feed, left open before. */
  function Judged(p: State, id: string): VI.Finding
    requires id in p.runs
  {
    if p.runs[id].snap.pc.Done? then VI.Finding(id, VI.Verified, "")
    else VI.Finding(id, VI.Unverifiable, "no-terminal-hash")
  }

  /** The verdict on one intent that has records. */
  lemma IntentFinding(h: Digest, p: State, id: string)
    requires Inv(h, p) && id in p.runs && RecordsOf(p, id) != []
    ensures V.Of(VI.SeenAll(p.feed.records), id) != []
    ensures V.Examine(h, id, V.Of(VI.SeenAll(p.feed.records), id)) == Judged(p, id)
  {
    hide VI.Readable, Feed.Sound, Idempotency.Sound, RunInv, Filter, Id, WellResolved, V.Of, V.Examine, Recover;
    var run := p.runs[id];
    assert RunSound(h, p, id, run);
    GroupSeen(p.feed.records, id);
    if run.snap.pc.Done? {
      CompletedVerifies(h, run.job, run.snap, RecordsOf(p, id));
    } else {
      IncompleteAbstains(h, run.job, run.snap, RecordsOf(p, id));
    }
  }

  lemma NumbersFine(rs: seq<Record>, k: nat)
    requires VI.AllReadable(rs) && Feed.Numbered(rs) && k <= |rs|
    ensures V.NumberFindings(VI.SeenAll(rs), k) == []
    decreases |rs| - k
  {
    hide VI.Readable;
    if k < |rs| {
      NumbersFine(rs, k + 1);
    }
  }

  /** No key-level finding: the granted keys of a prefix exclude the next. */
  lemma {:induction false} KeysFine(h: Digest, p: State, n: nat)
    requires Inv(h, p) && VI.AllReadable(p.feed.records) && n <= |p.feed.records|
    ensures V.KeyFindings(VI.SeenAll(p.feed.records[..n])) == []
  {
    hide Inv, VI.Readable, V.KeyFindings, V.GrantedKeys;
    if n == 0 {
      NoRecords();
      assert p.feed.records[..0] == [];
    } else {
      var init, r := p.feed.records[..n - 1], p.feed.records[n - 1];
      KeysFine(h, p, n - 1);
      assert p.feed.records[..n] == init + [r];
      VI.SeenSnoc(init, r);
      V.KeysSnoc(VI.SeenAll(init), VI.Seen(r));
      if V.Grants(VI.Seen(r)) && r.key in V.GrantedKeys(VI.SeenAll(init)) {
        EarlierGrant(p, n - 1, r.key);
        var j :| 0 <= j < n - 1 && IsGrant(p, j) && p.feed.records[j].key == r.key;
        OneGrantPerKey(h, p, j, n - 1);
      }
    }
  }

  lemma NoRecords()
    ensures VI.SeenAll([]) == [] && V.KeyFindings([]) == []
  {}

  lemma EarlierGrant(p: State, n: nat, key: string)
    requires n <= |p.feed.records| && VI.AllReadable(p.feed.records)
    requires key in V.GrantedKeys(VI.SeenAll(p.feed.records[..n]))
    ensures exists j :: 0 <= j < n && IsGrant(p, j) && p.feed.records[j].key == key
  {
    var t := VI.SeenAll(p.feed.records[..n]);
    var r :| r in t && V.Grants(r) && r.key == key;
    var j :| 0 <= j < |t| && t[j] == r;
    assert t[j] == VI.Seen(p.feed.records[..n][j]) && p.feed.records[..n][j] == p.feed.records[j];
    assert IsGrant(p, j);
  }

  /** What the examiner says of the feed file in this state. */
  function Report(h: Digest, p: State): V.Report {
    V.ReportOn(h, VI.FileFindings(Split(p.feed.disk, '\n')), Recover(p.feed.disk, VI.GoodOn))
  }

  lemma {:induction false} IntentsFine(h: Digest, p: State, ids: seq<string>)
    requires Inv(h, p) && VI.AllReadable(p.feed.records)
    requires forall id :: id in ids ==> id in V.Order(VI.SeenAll(p.feed.records))
    ensures var fs := V.IntentFindings(h, VI.SeenAll(p.feed.records), ids);
      |fs| == |ids| && forall k :: 0 <= k < |fs| ==>
        ids[k] in p.runs && fs[k] == Judged(p, ids[k])
  {
    hide Inv, VI.Readable, V.Examine, V.Of, V.Order;
    if ids != [] {
      var init, id := ids[..|ids| - 1], ids[|ids| - 1];
      IntentsFine(h, p, init);
      OrderedOwned(h, p, id);
      IntentFinding(h, p, id);
    }
  }

  lemma OrderedOwned(h: Digest, p: State, id: string)
    requires Inv(h, p) && VI.AllReadable(p.feed.records) && id in V.Order(VI.SeenAll(p.feed.records))
    ensures id in p.runs && RecordsOf(p, id) != []
  {
    hide VI.Readable, Feed.Sound, Idempotency.Sound, RunsSound, Filter, Recover;
    var t := VI.SeenAll(p.feed.records);
    var k :| 0 <= k < |t| && t[k].intentId == id;
    assert t[k] == VI.Seen(p.feed.records[k]);
    FilterMembers(p.feed.records, Feed.OfIntent(id));
    assert p.feed.records[k] in RecordsOf(p, id);
  }

  lemma FeedFine(h: Digest, p: State)
    requires Inv(h, p) && VI.AllReadable(p.feed.records)
    ensures var found := VI.FileFindings(Split(p.feed.disk, '\n'));
      V.FeedFindings(found, VI.SeenAll(p.feed.records)) ==
      found + (if p.feed.records == [] then [VI.Finding("feed", VI.Unverifiable, "empty")] else [])
  {
    hide Idempotency.Sound, RunsSound, Owned, Split, VI.FileFindings, VI.Readable, Feed.Recovered, V.NumberFindings,
         V.KeyFindings, Recover;
    NumbersFine(p.feed.records, 0);
    KeysFine(h, p, |p.feed.records|);
    assert p.feed.records[..|p.feed.records|] == p.feed.records;
    var found := VI.FileFindings(Split(p.feed.disk, '\n'));
    var rest := if p.feed.records == [] then [VI.Finding("feed", VI.Unverifiable, "empty")] else [];
    assert found + rest + [] + [] == found + rest;
  }

  /** Never REFUTED: whatever the interleaving, the answers and the crashes, a
      completed intent is VERIFIED, an interrupted one abstains, and torn lines
      only abstain. */
  lemma NeverRefuted(h: Digest, p: State)
    requires Inv(h, p)
    ensures Report(h, p).overall != VI.Refuted
    ensures forall f :: f in Report(h, p).feed ==> f.verdict == VI.Unverifiable
    ensures forall f :: f in Report(h, p).intents ==> f.scope in p.runs && f == Judged(p, f.scope)
    ensures forall id :: id in p.runs && RecordsOf(p, id) != [] ==>
      exists f :: f in Report(h, p).intents && f.scope == id
  {
    hide RunsSound, Owned, Split, VI.FileFindings, VI.Readable, Feed.Sound, Idempotency.Sound, V.FeedFindings,
         V.IntentFindings, V.Order, RecordsOf, Recover;
    var t := VI.SeenAll(p.feed.records);
    VI.LegibleFindings(p.feed);
    FeedFine(h, p);
    IntentsFine(h, p, V.Order(t));
    var fs := Report(h, p).intents;
    forall f | f in fs
      ensures f.scope in p.runs && f == Judged(p, f.scope)
    {
      var k :| 0 <= k < |fs| && fs[k] == f;
    }
    forall id | id in p.runs && RecordsOf(p, id) != []
      ensures exists f :: f in Report(h, p).intents && f.scope == id
    {
      RecordedOrdered(p, id);
      var k :| 0 <= k < |V.Order(t)| && V.Order(t)[k] == id;
      assert Report(h, p).intents[k].scope == id;
    }
  }

  lemma RecordedOrdered(p: State, id: string)
    requires VI.AllReadable(p.feed.records) && RecordsOf(p, id) != []
    ensures id in V.Order(VI.SeenAll(p.feed.records))
  {
    hide Filter, V.Order;
    var r := RecordsOf(p, id)[0];
    assert r in RecordsOf(p, id);
    FilterMembers(p.feed.records, Feed.OfIntent(id));
    var k :| 0 <= k < |p.feed.records| && p.feed.records[k] == r;
    var t := VI.SeenAll(p.feed.records);
    assert t[k] == VI.Seen(p.feed.records[k]) && t[k].intentId == id;
  }
}
