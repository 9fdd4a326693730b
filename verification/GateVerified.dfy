// What the examiner says of the records one run leaves in a feed.

module GateVerified {
  import opened Text
  import opened Hashing
  import opened Intents
  import opened Lifecycle
  import opened FeedRecord
  import opened Gate
  import opened GateInvariant
  import opened VerifierInput
  import V = Verifier
  import Sorting
  import Audit

  /** `rs` are the mirrored records once the feed has numbered them. */
  ghost predicate Stamped(rs: seq<Record>, recs: seq<Record>) {
    |rs| == |recs| && forall k :: 0 <= k < |rs| ==> rs[k].globalSeq >= 1 && rs[k].(globalSeq := 0) == recs[k]
  }

  lemma KindTypes(k: Kind)
    ensures V.IsKnown(Name(k)) && Name(k) != ""
    ensures Name(k) == "ACHIEVED" ==> k == ACHIEVED
    ensures Name(k) == "DECLARED" ==> k == DECLARED
    ensures Final(k) ==> V.EndsIntent(Name(k))
    ensures Name(k) == "ACHIEVED" || Name(k) == "SHADOW_RECORDED" ==> Traced(k)
  {}

  lemma KnownIsKnown(t: string)
    requires KnownType(t)
    ensures V.IsKnown(t) && t != ""
  {
    var k: Kind :| t == Name(k);
    KindTypes(k);
  }

  /** Every record of a run is readable by the examiner. */
  lemma RunReadable(h: Digest, job: Job, s: Snap, rs: seq<Record>)
    requires RunInv(h, job, s) && Stamped(rs, s.recs)
    ensures AllReadable(rs)
    ensures forall k :: 0 <= k < |rs| ==>
      V.IsKnown(rs[k].typ) && rs[k].intentSeq == k && rs[k].intentId == Id(h, job.intent)
  {
    hide Name, V.IsKnown, Id, RefusalShape, EventsOf;
    forall k | 0 <= k < |rs|
      ensures Readable(rs[k]) && V.IsKnown(rs[k].typ) && rs[k].intentSeq == k && rs[k].intentId == Id(h, job.intent)
    {
      assert rs[k].typ == s.recs[k].typ && rs[k].intentSeq == s.recs[k].intentSeq == k;
      RecordOfRun(h, job, s, k);
      KnownIsKnown(rs[k].typ);
    }
  }

  lemma RecordOfRun(h: Digest, job: Job, s: Snap, k: nat)
    requires RunInv(h, job, s) && k < |s.recs|
    ensures KnownType(s.recs[k].typ) && s.recs[k].intentId == Id(h, job.intent) && s.recs[k].intentSeq == k
  {
    hide Name, Id, RefusalShape, EventsOf, TerminalOf;
    if k < |s.recs| - 1 || !s.pc.Done? {
      assert Interior(h, job, s.recs[k]);
    } else {
      assert Closing(h, job, s.pc, s.recs);
    }
  }

  lemma SeenFields(rs: seq<Record>, k: nat)
    requires AllReadable(rs) && k < |rs|
    ensures var r := SeenAll(rs)[k];
      && r.clock == rs[k].intentSeq && r.typ == rs[k].typ && r.detail == rs[k].detail && r.hash == rs[k].hash
      && r.key == rs[k].key && r.specHash == rs[k].specHash
  {}

  /** Records 0..n in order are already sorted. */
  lemma AlreadySorted(rs: seq<Record>)
    requires AllReadable(rs) && forall k :: 0 <= k < |rs| ==> rs[k].intentSeq == k
    ensures V.Sorted(SeenAll(rs)) == SeenAll(rs)
  {
    hide Readable, Sorting.Sort;
    var t := SeenAll(rs);
    forall k | 0 <= k < |t|
      ensures t[k].clock == k
    {
      SeenFields(rs, k);
    }
    assert Sorting.Sorted(t, V.ByClock());
    Sorting.SortOfSorted(t, V.ByClock());
  }

  /** The examiner recomputes the log's own encoding from the feed records. */
  lemma SameEvents(rs: seq<Record>, recs: seq<Record>)
    requires AllReadable(rs) && Stamped(rs, recs) && forall k :: 0 <= k < |recs| ==> recs[k].intentSeq == k
    ensures V.Events(SeenAll(rs)) == EventsOf(recs)
  {
    hide Readable;
    forall k | 0 <= k < |rs|
      ensures V.Events(SeenAll(rs))[k] == EventsOf(recs)[k]
    {
      SeenFields(rs, k);
      assert rs[k].(globalSeq := 0) == recs[k];
    }
  }

  /** The declaration binding: the first record names its own intent. */
  lemma FirstSeen(h: Digest, job: Job, s: Snap, rs: seq<Record>)
    requires RunInv(h, job, s) && s.recs != [] && Stamped(rs, s.recs) && AllReadable(rs)
    ensures var t := SeenAll(rs); t[0].typ == "DECLARED" && t[0].detail == Id(h, job.intent)
  {
    hide Readable, Id, Interior, Closing;
    SeenFields(rs, 0);
    assert rs[0].(globalSeq := 0) == s.recs[0];
  }

  lemma InteriorSeen(h: Digest, job: Job, s: Snap, rs: seq<Record>, k: nat)
    requires RunInv(h, job, s) && Stamped(rs, s.recs) && AllReadable(rs)
    requires k < |s.recs| && (k < |s.recs| - 1 || !s.pc.Done?)
    ensures var r := SeenAll(rs)[k]; r.hash == "" && r.typ != "ACHIEVED"
  {
    hide Readable, Id, Closing;
    SeenFields(rs, k);
    assert rs[k].(globalSeq := 0) == s.recs[k];
    assert Interior(h, job, s.recs[k]);
  }

  lemma LastSeen(h: Digest, job: Job, s: Snap, rs: seq<Record>)
    requires RunInv(h, job, s) && s.pc.Done? && WellResolved(job.intent)
    requires Stamped(rs, s.recs) && AllReadable(rs) && rs != []
    ensures var last := SeenAll(rs)[|rs| - 1];
      && last.hash == Audit.HashOf(h, EventsOf(s.recs)) && last.hash != "" && V.Closes(last.typ)
      && (last.typ == "ACHIEVED" || last.typ == "SHADOW_RECORDED" ==> last.key != "" && last.specHash != "")
  {
    hide Readable, Id, Interior, EventsOf, Name, V.EndsIntent, V.Closes;
    var n := |rs| - 1;
    SeenFields(rs, n);
    assert rs[n].(globalSeq := 0) == s.recs[n];
    assert Closing(h, job, s.pc, s.recs);
    LastKind(h, job, s);
    var kind :| s.recs[n].typ == Name(kind) && Final(kind) && (Traced(kind) ==> kind == s.pc.terminal);
    KindTypes(kind);
    V.Tables(rs[n].typ);
  }

  lemma LastKind(h: Digest, job: Job, s: Snap)
    requires RunInv(h, job, s) && s.recs != [] && s.pc.Done?
    ensures exists kind ::
      s.recs[|s.recs| - 1].typ == Name(kind) && Final(kind) && (Traced(kind) ==> kind == s.pc.terminal)
  {
    hide Id, Interior, EventsOf, Name, RefusalShape;
    var last := s.recs[|s.recs| - 1];
    assert Closing(h, job, s.pc, s.recs);
    if Traced(s.pc.terminal) {
      assert last.typ == Name(s.pc.terminal) && Final(s.pc.terminal);
    } else {
      var kind :|
        last.typ == Name(kind) && TerminalOf(kind) == s.pc.terminal && RefusalShape(kind, last.detail, s.pc.reason);
      RefusalIsNotTraced(kind, last.detail, s.pc.reason);
      assert Final(kind) && !Traced(kind);
    }
  }

  /** Everything a completed run leaves in the feed is accepted. */
  lemma CompletedVerifies(h: Digest, job: Job, s: Snap, rs: seq<Record>)
    requires RunInv(h, job, s) && s.pc.Done? && s.recs != [] && WellResolved(job.intent) && Stamped(rs, s.recs)
    ensures AllReadable(rs) && V.Examine(h, Id(h, job.intent), SeenAll(rs)) == Finding(Id(h, job.intent), Verified, "")
  {
    hide RunInv, Stamped, Readable, Id, EventsOf, V.IsKnown, V.InVocabulary, V.Closes, V.Sorted;
    RunReadable(h, job, s, rs);
    assert |rs| == |s.recs| by { SameLength(rs, s.recs); }
    var t := SeenAll(rs);
    AlreadySorted(rs);
    RunClocked(h, job, s);
    SameEvents(rs, s.recs);
    FirstSeen(h, job, s, rs);
    LastSeen(h, job, s, rs);
    forall k | 0 <= k < |t|
      ensures t[k].clock == k && V.InVocabulary(t[k].typ)
      ensures k < |t| - 1 ==> t[k].hash == "" && t[k].typ != "ACHIEVED"
    {
      SeenFields(rs, k);
      V.Tables(t[k].typ);
      if k < |t| - 1 {
        InteriorSeen(h, job, s, rs, k);
      }
    }
    assert V.WellFormed(h, Id(h, job.intent), t);
    V.ExaminedExactly(h, Id(h, job.intent), t);
    V.VerifiedFinding(h, Id(h, job.intent), t);
  }

  lemma SameLength(rs: seq<Record>, recs: seq<Record>)
    requires Stamped(rs, recs)
    ensures |rs| == |recs|
  {}

  lemma RunClocked(h: Digest, job: Job, s: Snap)
    requires RunInv(h, job, s)
    ensures forall k :: 0 <= k < |s.recs| ==> s.recs[k].intentSeq == k
  {}

  /** A run whose last record never reached the feed is neither passed nor
      refuted. */
  lemma IncompleteAbstains(h: Digest, job: Job, s: Snap, rs: seq<Record>)
    requires RunInv(h, job, s) && !s.pc.Done? && s.recs != [] && Stamped(rs, s.recs)
    ensures AllReadable(rs)
    ensures V.Examine(h, Id(h, job.intent), SeenAll(rs)) == Finding(Id(h, job.intent), Unverifiable, "no-terminal-hash")
  {
    hide RunInv, Stamped, Readable, Id, EventsOf, V.IsKnown, V.EndsIntent, V.NeedsTrace, V.Sorted, V.AchievedIn, Itoa;
    RunReadable(h, job, s, rs);
    assert |rs| == |s.recs| by { SameLength(rs, s.recs); }
    var t := SeenAll(rs);
    AlreadySorted(rs);
    FirstSeen(h, job, s, rs);
    forall k | 0 <= k < |t|
      ensures t[k].clock == k && V.IsKnown(t[k].typ) && t[k].hash == ""
    {
      SeenFields(rs, k);
      InteriorSeen(h, job, s, rs, k);
    }
  }

  /** Tamper evidence: any records of this intent, from any file, that verify
      and end in the hash the gate committed for the run are the gate's own
      log, or exhibit a collision. */
  lemma CommitmentHolds(h: Digest, job: Job, s: Snap, rs: seq<VRecord>)
    requires RunInv(h, job, s) && s.pc.Done? && s.recs != []
    requires rs != [] && V.Examine(h, Id(h, job.intent), rs).verdict == Verified
    requires var t := V.Sorted(rs); t[|t| - 1].hash == s.recs[|s.recs| - 1].hash
    ensures var es := V.Events(V.Sorted(rs));
      es == EventsOf(s.recs) || Collision(h, Audit.Encode(es), Audit.Encode(EventsOf(s.recs)))
  {
    hide V.Examine, V.Sorted, V.Events, EventsOf, Id, Name;
    assert Closing(h, job, s.pc, s.recs);
    V.TamperEvident(h, Id(h, job.intent), rs, EventsOf(s.recs));
  }
}
