// The examiner's checks over parsed records (verifier/verify.go), what they
// accept, and the Python twin (verifier/pyverifier/verify.py).

module Verifier {
  import opened Text
  import opened Hashing
  import opened Sorting
  import Seqs
  import opened Lines
  import opened VerifierInput
  import Audit

  predicate IsKnown(t: string) {
    t in {"DECLARED", "RESOLVING", "ACTIVE", "VERIFYING", "SCORED", "RECHECK", "UNEVALUABLE", "REVOKED",
          "IDEMPOTENCY_RESERVED", "ACHIEVED", "FAILED", "FAILED_AT_DISPATCH", "SHADOW_RECORDED"}
  }

  predicate EndsIntent(t: string) {
    t in {"ACHIEVED", "SHADOW_RECORDED", "FAILED", "FAILED_AT_DISPATCH", "UNEVALUABLE", "REVOKED"}
  }

  predicate NeedsTrace(t: string) { t == "ACHIEVED" || t == "SHADOW_RECORDED" }

  function ByClock(): VRecord -> int { (r: VRecord) => r.clock }

  function Events(t: seq<VRecord>): (es: seq<Audit.Event>)
    ensures |es| == |t|
  {
    seq(|t|, k requires 0 <= k < |t| => Audit.Event(t[k].clock, t[k].typ, t[k].detail))
  }

  // ---------------------------------------------------- the checks, as functions

  /** The first position whose clock is not its index, or the length. */
  function FirstGap(t: seq<VRecord>, k: nat): (r: nat)
    requires k <= |t|
    ensures k <= r <= |t| && (forall j :: k <= j < r ==> t[j].clock == j) && (r < |t| ==> t[r].clock != r)
    decreases |t| - k
  {
    if k == |t| || t[k].clock != k then k else FirstGap(t, k + 1)
  }

  function FirstUnknown(t: seq<VRecord>, k: nat): (r: nat)
    requires k <= |t|
    ensures k <= r <= |t| && (forall j :: k <= j < r ==> IsKnown(t[j].typ)) && (r < |t| ==> !IsKnown(t[r].typ))
    decreases |t| - k
  {
    if k == |t| || !IsKnown(t[k].typ) then k else FirstUnknown(t, k + 1)
  }

  /** The first record before `n` that carries a hash, or `n`. */
  function FirstHashed(t: seq<VRecord>, k: nat, n: nat): (r: nat)
    requires k <= n <= |t|
    ensures k <= r <= n && (forall j :: k <= j < r ==> t[j].hash == "") && (r < n ==> t[r].hash != "")
    decreases n - k
  {
    if k == n || t[k].hash != "" then k else FirstHashed(t, k + 1, n)
  }

  function AchievedIn(t: seq<VRecord>): (n: nat)
    ensures n == 0 <==> forall j :: 0 <= j < |t| ==> t[j].typ != "ACHIEVED"
  {
    if t == [] then 0
    else AchievedIn(t[..|t| - 1]) + (if t[|t| - 1].typ == "ACHIEVED" then 1 else 0)
  }

  /** The first check, in the fixed order, that the sorted records fail. */
  function Examined(h: Digest, id: string, t: seq<VRecord>): Finding
    requires t != []
  {
    var gap := FirstGap(t, 0);
    if gap < |t| then
      if gap > 0 && t[gap].clock == t[gap - 1].clock
      then Finding(id, Refuted, "intent-seq-dup:" + Itoa(t[gap].clock))
      else Finding(id, Refuted, "intent-seq-gap:" + Itoa(t[gap].clock) + ":" + Itoa(gap))
    else if t[0].typ != "DECLARED" then Finding(id, Refuted, "missing-declared")
    else if t[0].detail != id then Finding(id, Refuted, "declared-detail-mismatch")
    else
      var unknown, hashed := FirstUnknown(t, 0), FirstHashed(t, 0, |t| - 1);
      if unknown < |t| then Finding(id, Unverifiable, "unknown-event-type:" + t[unknown].typ)
      else if hashed < |t| - 1 then Finding(id, Refuted, "hash-on-nonterminal:" + Itoa(t[hashed].clock))
      else ExaminedEnd(h, id, t)
  }

  /** What is left of the examination once order, types and interior are. */
  function ExaminedEnd(h: Digest, id: string, t: seq<VRecord>): Finding
    requires t != []
  {
    var last := t[|t| - 1];
    if last.hash == "" then Finding(id, Unverifiable, "no-terminal-hash")
    else if !EndsIntent(last.typ) then Finding(id, Refuted, "terminal-type:" + last.typ)
    else if AchievedIn(t) > 1 then Finding(id, Refuted, "duplicate-achieved")
    else if AchievedIn(t) == 1 && last.typ != "ACHIEVED" then Finding(id, Refuted, "achieved-not-terminal")
    else if NeedsTrace(last.typ) && last.key == "" then
      Finding(id, Refuted, "trace-field-missing:" + last.typ + ":" + "idempotency_key")
    else if NeedsTrace(last.typ) && last.specHash == "" then
      Finding(id, Refuted, "trace-field-missing:" + last.typ + ":" + "intent_spec_hash")
    else if Audit.HashOf(h, Events(t)) != last.hash then Finding(id, Refuted, "hash-mismatch")
    else Finding(id, Verified, "")
  }

  function Sorted(recs: seq<VRecord>): (t: seq<VRecord>)
    ensures |t| == |recs|
  {
    SortSorts(recs, ByClock());
    Sort(recs, ByClock())
  }

  function Examine(h: Digest, id: string, recs: seq<VRecord>): Finding
    requires recs != []
  {
    Examined(h, id, Sorted(recs))
  }

  // ---------------------------------------------------- what VERIFIED means

  /** One intent's trajectory as the contract describes it. */
  ghost predicate WellFormed(h: Digest, id: string, t: seq<VRecord>) {
    && t != []
    && (forall k :: 0 <= k < |t| ==> t[k].clock == k && InVocabulary(t[k].typ))
    && t[0].typ == "DECLARED" && t[0].detail == id
    && (forall k :: 0 <= k < |t| - 1 ==> t[k].hash == "" && t[k].typ != "ACHIEVED")
    && var last := t[|t| - 1];
    && last.hash != "" && Closes(last.typ)
    && (last.typ == "ACHIEVED" || last.typ == "SHADOW_RECORDED" ==> last.key != "" && last.specHash != "")
    && last.hash == Audit.HashOf(h, Events(t))
  }

  /** The event types of the contract. */
  ghost predicate InVocabulary(t: string) {
    || t == "DECLARED" || t == "RESOLVING" || t == "ACTIVE" || t == "VERIFYING"
    || t == "SCORED" || t == "RECHECK" || t == "UNEVALUABLE" || t == "REVOKED" || t == "IDEMPOTENCY_RESERVED"
    || t == "ACHIEVED" || t == "FAILED" || t == "FAILED_AT_DISPATCH" || t == "SHADOW_RECORDED"
  }

  /** The event types that may end an intent. */
  ghost predicate Closes(t: string) {
    || t == "ACHIEVED" || t == "SHADOW_RECORDED" || t == "FAILED" || t == "FAILED_AT_DISPATCH"
    || t == "UNEVALUABLE" || t == "REVOKED"
  }

  lemma Tables(t: string)
    ensures IsKnown(t) <==> InVocabulary(t)
    ensures EndsIntent(t) <==> Closes(t)
  {}

  /** `k` is the first position before `n` that `p` marks. */
  ghost predicate IsFirst(k: nat, n: nat, p: nat -> bool) { k < n && p(k) && forall j: nat :: j < k ==> !p(j) }

  /** The verdict and reason the contract gives sorted records: what is wrong
      first, in the contract's order. */
  ghost predicate Expected(h: Digest, id: string, t: seq<VRecord>, f: Finding)
    requires t != []
  {
    var n := |t|;
    if exists k :: 0 <= k < n && t[k].clock != k then
      exists k: nat :: IsFirst(k, n, Misplaced(t)) && f == Finding(id, Refuted, Misplacement(t, k))
    else if t[0].typ != "DECLARED" then f == Finding(id, Refuted, "missing-declared")
    else if t[0].detail != id then f == Finding(id, Refuted, "declared-detail-mismatch")
    else if exists k :: 0 <= k < n && !InVocabulary(t[k].typ) then
      exists k: nat :: IsFirst(k, n, Foreign(t)) && f == Finding(id, Unverifiable, "unknown-event-type:" + t[k].typ)
    else if exists k :: 0 <= k < n - 1 && t[k].hash != "" then
      exists k: nat ::
        IsFirst(k, n - 1, Hashed(t)) && f == Finding(id, Refuted, "hash-on-nonterminal:" + Itoa(t[k].clock))
    else ExpectedEnd(h, id, t, f)
  }

  /** The same for records whose order, types and interior are in order. */
  ghost predicate ExpectedEnd(h: Digest, id: string, t: seq<VRecord>, f: Finding)
    requires t != []
  {
    var n, last := |t|, t[|t| - 1];
    if last.hash == "" then f == Finding(id, Unverifiable, "no-terminal-hash")
    else if !Closes(last.typ) then f == Finding(id, Refuted, "terminal-type:" + last.typ)
    else if exists j, k :: 0 <= j < k < n && t[j].typ == "ACHIEVED" && t[k].typ == "ACHIEVED" then
      f == Finding(id, Refuted, "duplicate-achieved")
    else if exists k :: 0 <= k < n - 1 && t[k].typ == "ACHIEVED" then
      f == Finding(id, Refuted, "achieved-not-terminal")
    else if (last.typ == "ACHIEVED" || last.typ == "SHADOW_RECORDED") && last.key == "" then
      f == Finding(id, Refuted, "trace-field-missing:" + last.typ + ":idempotency_key")
    else if (last.typ == "ACHIEVED" || last.typ == "SHADOW_RECORDED") && last.specHash == "" then
      f == Finding(id, Refuted, "trace-field-missing:" + last.typ + ":intent_spec_hash")
    else if last.hash != Audit.HashOf(h, Events(t)) then f == Finding(id, Refuted, "hash-mismatch")
    else f == Finding(id, Verified, "")
  }

  /** A record whose clock is not its place repeats the one before it or leaves
      a gap. */
  ghost function Misplacement(t: seq<VRecord>, k: nat): string
    requires k < |t|
  {
    if k > 0 && t[k].clock == t[k - 1].clock then "intent-seq-dup:" + Itoa(t[k].clock)
    else "intent-seq-gap:" + Itoa(t[k].clock) + ":" + Itoa(k)
  }

  ghost function Misplaced(t: seq<VRecord>): nat -> bool { (k: nat) => k < |t| && t[k].clock != k }

  ghost function Foreign(t: seq<VRecord>): nat -> bool { (k: nat) => k < |t| && !InVocabulary(t[k].typ) }

  ghost function Hashed(t: seq<VRecord>): nat -> bool { (k: nat) => k < |t| && t[k].hash != "" }

  /** The examiner says what the contract says, reason included. */
  lemma ExaminedAsExpected(h: Digest, id: string, t: seq<VRecord>)
    requires t != []
    ensures Expected(h, id, t, Examined(h, id, t))
  {
    hide Events, Itoa, ExpectedEnd, ExaminedEnd, FirstGap, FirstUnknown, FirstHashed, IsKnown, InVocabulary,
         Misplaced, Foreign, Hashed, IsFirst;
    GapAt(t);
    UnknownAt(t);
    HashedAt(t);
    EndAsExpected(h, id, t);
  }

  lemma GapAt(t: seq<VRecord>)
    ensures var k := FirstGap(t, 0); k < |t| ==> IsFirst(k, |t|, Misplaced(t)) && t[k].clock != k
    ensures FirstGap(t, 0) < |t| <==> exists k :: 0 <= k < |t| && t[k].clock != k
  {
    hide FirstGap;
  }

  lemma UnknownAt(t: seq<VRecord>)
    ensures var k := FirstUnknown(t, 0); k < |t| ==> IsFirst(k, |t|, Foreign(t)) && !InVocabulary(t[k].typ)
    ensures FirstUnknown(t, 0) < |t| <==> exists k :: 0 <= k < |t| && !InVocabulary(t[k].typ)
  {
    hide FirstUnknown, IsKnown, InVocabulary;
    forall k | 0 <= k < |t|
      ensures IsKnown(t[k].typ) <==> InVocabulary(t[k].typ)
    {
      Tables(t[k].typ);
    }
  }

  lemma HashedAt(t: seq<VRecord>)
    requires t != []
    ensures var k := FirstHashed(t, 0, |t| - 1); k < |t| - 1 ==> IsFirst(k, |t| - 1, Hashed(t)) && t[k].hash != ""
    ensures FirstHashed(t, 0, |t| - 1) < |t| - 1 <==> exists k :: 0 <= k < |t| - 1 && t[k].hash != ""
  {
    hide FirstHashed;
  }

  lemma EndAsExpected(h: Digest, id: string, t: seq<VRecord>)
    requires t != []
    ensures ExpectedEnd(h, id, t, ExaminedEnd(h, id, t))
  {
    Tables(t[|t| - 1].typ);
    TraceReason(t[|t| - 1].typ);
    AchievedTwice(t);
    if AchievedIn(t) <= 1 {
      AchievedEarly(t);
    }
    hide EndsIntent, AchievedIn, Events, Closes;
  }

  lemma AchievedEarly(t: seq<VRecord>)
    requires t != [] && AchievedIn(t) <= 1
    ensures AchievedIn(t) == 1 && t[|t| - 1].typ != "ACHIEVED" <==>
            exists k :: 0 <= k < |t| - 1 && t[k].typ == "ACHIEVED"
  {
    FewAchieved(t);
    hide AchievedIn;
  }

  lemma TraceReason(typ: string)
    ensures var head := "trace-field-missing:" + typ;
      && head + ":" + "idempotency_key" == head + ":idempotency_key"
      && head + ":" + "intent_spec_hash" == head + ":intent_spec_hash"
  {
    assert ":" + "idempotency_key" == ":idempotency_key" && ":" + "intent_spec_hash" == ":intent_spec_hash";
  }

  lemma {:induction false} AchievedCount(t: seq<VRecord>)
    ensures AchievedIn(t) > 0 <==> exists k :: 0 <= k < |t| && t[k].typ == "ACHIEVED"
  {
    if t != [] {
      var init := t[..|t| - 1];
      AchievedCount(init);
      assert forall k :: 0 <= k < |init| ==> init[k] == t[k];
    }
  }

  lemma {:induction false} AchievedTwice(t: seq<VRecord>)
    ensures AchievedIn(t) > 1 <==> exists j, k :: 0 <= j < k < |t| && t[j].typ == "ACHIEVED" && t[k].typ == "ACHIEVED"
  {
    if t != [] {
      var n := |t| - 1;
      var init := t[..n];
      AchievedCount(init);
      AchievedTwice(init);
      assert AchievedIn(t) == AchievedIn(init) + (if t[n].typ == "ACHIEVED" then 1 else 0);
      hide AchievedIn;
      assert forall k :: 0 <= k < n ==> t[k] == init[k];
    }
  }

  lemma {:induction false} FewAchieved(t: seq<VRecord>)
    requires t != []
    ensures AchievedIn(t) <= 1 && (AchievedIn(t) == 1 ==> t[|t| - 1].typ == "ACHIEVED") <==>
            forall k :: 0 <= k < |t| - 1 ==> t[k].typ != "ACHIEVED"
  {
    var init := t[..|t| - 1];
    assert AchievedIn(init) == 0 <==> forall k :: 0 <= k < |init| ==> init[k].typ != "ACHIEVED";
  }

  lemma ExaminedExactly(h: Digest, id: string, t: seq<VRecord>)
    requires t != []
    ensures Examined(h, id, t).verdict == Verified <==> WellFormed(h, id, t)
  {
    hide IsKnown, EndsIntent, AchievedIn, FirstGap, FirstUnknown, FirstHashed, Events, Itoa, InVocabulary, Closes;
    FewAchieved(t);
    Tables(t[|t| - 1].typ);
    forall k | 0 <= k < |t|
      ensures IsKnown(t[k].typ) <==> InVocabulary(t[k].typ)
    {
      Tables(t[k].typ);
    }
  }

  lemma VerifiedFinding(h: Digest, id: string, t: seq<VRecord>)
    requires t != [] && Examined(h, id, t).verdict == Verified
    ensures Examined(h, id, t) == Finding(id, Verified, "")
  {
    hide IsKnown, EndsIntent, AchievedIn, FirstGap, FirstUnknown, FirstHashed, Events, Itoa;
  }

  /** Clocks 0..n leave only one sorted arrangement. */
  lemma SortedUnique(recs: seq<VRecord>, t: seq<VRecord>)
    requires multiset(recs) == multiset(t)
    requires forall k :: 0 <= k < |t| ==> t[k].clock == k
    ensures Sorted(recs) == t
  {
    var s := Sorted(recs);
    SortSorts(recs, ByClock());
    assert |s| == |multiset(s)| == |multiset(t)| == |t|;
    SameKeys(s, t, ByClock());
    SortedKeysUnique(Keys(s, ByClock()), Keys(t, ByClock()));
    forall k | 0 <= k < |s|
      ensures s[k] == t[k]
    {
      assert Keys(s, ByClock())[k] == Keys(t, ByClock())[k] == k;
      assert s[k] in multiset(t);
      var j :| 0 <= j < |t| && t[j] == s[k];
    }
  }

  lemma {:induction false} SameKeys<T>(xs: seq<T>, ys: seq<T>, key: T -> int)
    requires multiset(xs) == multiset(ys)
    ensures multiset(Keys(xs, key)) == multiset(Keys(ys, key))
    decreases |xs|
  {
    if xs == [] {
      assert |multiset(ys)| == 0;
    } else {
      var x, rest := xs[0], xs[1..];
      assert xs == [x] + rest;
      assert x in multiset(ys);
      var j :| 0 <= j < |ys| && ys[j] == x;
      var a, b := ys[..j], ys[j + 1..];
      assert ys == a + [x] + b;
      CancelOne(x, rest, a, b);
      SameKeys(rest, a + b, key);
      KeysSplit(x, rest, a, b, key);
    }
  }

  lemma CancelOne<T>(x: T, rest: seq<T>, a: seq<T>, b: seq<T>)
    requires multiset([x] + rest) == multiset(a + [x] + b)
    ensures multiset(rest) == multiset(a + b)
  {
    assert multiset([x] + rest) == multiset{x} + multiset(rest);
    assert multiset(a + [x] + b) == multiset{x} + multiset(a + b);
    assert multiset(rest) == multiset([x] + rest) - multiset{x};
    assert multiset(a + b) == multiset(a + [x] + b) - multiset{x};
  }

  lemma KeysSplit<T>(x: T, rest: seq<T>, a: seq<T>, b: seq<T>, key: T -> int)
    ensures multiset(Keys([x] + rest, key)) == multiset{key(x)} + multiset(Keys(rest, key))
    ensures multiset(Keys(a + [x] + b, key)) == multiset{key(x)} + multiset(Keys(a + b, key))
  {
    assert Keys([x] + rest, key) == [key(x)] + Keys(rest, key);
    assert Keys(a + [x] + b, key) == Keys(a, key) + [key(x)] + Keys(b, key);
    assert Keys(a + b, key) == Keys(a, key) + Keys(b, key);
  }

  lemma HeadIsLeast(a: seq<int>, x: int)
    requires x in multiset(a) && Ascending(a)
    ensures a[0] <= x
  {
    var k :| 0 <= k < |a| && a[k] == x;
  }

  lemma SameTails(a: seq<int>, b: seq<int>)
    requires a != [] && b != [] && a[0] == b[0] && multiset(a) == multiset(b)
    ensures multiset(a[1..]) == multiset(b[1..])
  {
    assert a == [a[0]] + a[1..] && b == [] + [b[0]] + b[1..];
    CancelOne(a[0], a[1..], [], b[1..]);
    assert [] + b[1..] == b[1..];
  }

  ghost predicate Ascending(a: seq<int>) { forall i, j :: 0 <= i < j < |a| ==> a[i] <= a[j] }

  lemma {:induction false} SortedKeysUnique(a: seq<int>, b: seq<int>)
    requires multiset(a) == multiset(b)
    requires Ascending(a) && Ascending(b)
    ensures a == b
    decreases |a|
  {
    assert |a| == |multiset(a)| == |multiset(b)| == |b|;
    if a != [] {
      assert a[0] in multiset(b) && b[0] in multiset(a);
      HeadIsLeast(a, b[0]);
      HeadIsLeast(b, a[0]);
      SameTails(a, b);
      SortedKeysUnique(a[1..], b[1..]);
      assert a == [a[0]] + a[1..] && b == [b[0]] + b[1..];
    }
  }

  /** VERIFIED means exactly that the records, in whatever order the file holds
      them, rearrange into a well-formed trajectory. */
  lemma VerifiedExactly(h: Digest, id: string, recs: seq<VRecord>)
    requires recs != []
    ensures Examine(h, id, recs).verdict == Verified <==>
            exists t :: multiset(t) == multiset(recs) && WellFormed(h, id, t)
  {
    hide Examined, Sorted;
    ExaminedExactly(h, id, Sorted(recs));
    assert multiset(Sorted(recs)) == multiset(recs) by { SortedPermutes(recs); }
    if t :| multiset(t) == multiset(recs) && WellFormed(h, id, t) {
      SortedUnique(recs, t);
    }
  }

  lemma SortedPermutes(recs: seq<VRecord>)
    ensures multiset(Sorted(recs)) == multiset(recs)
  {
    SortSorts(recs, ByClock());
  }

  // ---------------------------------------------------- order does not matter

  /** The whole finding, reason included, is the same for any order of the
      same records, duplicates and gaps included. */
  lemma ExamineInvariant(h: Digest, id: string, a: seq<VRecord>, b: seq<VRecord>)
    requires a != [] && multiset(a) == multiset(b)
    ensures b != [] && Examine(h, id, a) == Examine(h, id, b)
  {
    assert |b| == |multiset(b)| == |multiset(a)| == |a|;
    var s, t := Sorted(a), Sorted(b);
    SortSorts(a, ByClock());
    SortSorts(b, ByClock());
    SameKeys(s, t, ByClock());
    SortedKeysUnique(Keys(s, ByClock()), Keys(t, ByClock()));
    SameGap(s, t);
    if FirstGap(s, 0) == |s| {
      SortedUnique(b, s);
    } else {
      GapDecides(h, id, s, t);
    }
  }

  lemma SameGap(s: seq<VRecord>, t: seq<VRecord>)
    requires Keys(s, ByClock()) == Keys(t, ByClock())
    ensures |s| == |t| && forall k :: 0 <= k < |s| ==> s[k].clock == t[k].clock
    ensures FirstGap(s, 0) == FirstGap(t, 0)
  {
    assert |s| == |Keys(s, ByClock())|;
    forall k | 0 <= k < |s|
      ensures s[k].clock == t[k].clock
    {
      assert Keys(s, ByClock())[k] == Keys(t, ByClock())[k];
    }
  }

  lemma GapDecides(h: Digest, id: string, s: seq<VRecord>, t: seq<VRecord>)
    requires s != [] && |s| == |t| && forall k :: 0 <= k < |s| ==> s[k].clock == t[k].clock
    requires FirstGap(s, 0) == FirstGap(t, 0) < |s|
    ensures Examined(h, id, s) == Examined(h, id, t)
  {
    hide Itoa, FirstUnknown, FirstHashed, AchievedIn, IsKnown, EndsIntent, NeedsTrace, Events, FirstGap;
  }

  // ---------------------------------------------------- tamper evidence

  /** If an intent's records verify and end in the hash committed for a log,
      they are that log, or the digest has a collision: no edit, insertion,
      deletion or renumbering survives. */
  lemma TamperEvident(h: Digest, id: string, recs: seq<VRecord>, log: seq<Audit.Event>)
    requires recs != [] && Examine(h, id, recs).verdict == Verified
    requires var t := Sorted(recs); t[|t| - 1].hash == Audit.HashOf(h, log)
    ensures var es := Events(Sorted(recs));
      es == log || Collision(h, Audit.Encode(es), Audit.Encode(log))
  {
    hide Examined, Sorted, Events, IsKnown, EndsIntent;
    ExaminedExactly(h, id, Sorted(recs));
    Audit.HashCommits(h, Events(Sorted(recs)), log);
  }

  // ---------------------------------------------------- the whole report

  datatype Report = Report(feed: seq<Finding>, intents: seq<Finding>, overall: Verdict)

  /** Global numbers run 1, 2, ... in file order; only the first gap is reported. */
  function NumberFindings(recs: seq<VRecord>, k: nat): seq<Finding>
    requires k <= |recs|
    decreases |recs| - k
  {
    if k == |recs| then []
    else if recs[k].seqNo != k + 1
    then [Finding("feed", Refuted, "seq-gap:" + Itoa(recs[k].seqNo) + ":" + Itoa(k + 1))]
    else NumberFindings(recs, k + 1)
  }

  predicate Grants(r: VRecord) { r.typ == "ACHIEVED" && r.key != "" }

  function GrantedKeys(recs: seq<VRecord>): set<string> { set r | r in recs && Grants(r) :: r.key }

  function KeyFindings(recs: seq<VRecord>): seq<Finding> {
    if recs == [] then []
    else
      var init, r := recs[..|recs| - 1], recs[|recs| - 1];
      KeyFindings(init) +
      (if Grants(r) && r.key in GrantedKeys(init)
       then [Finding("feed", Refuted, "duplicate-achieved-key:" + r.key)] else [])
  }

  /** Intent ids in first-appearance order. */
  function Order(recs: seq<VRecord>): (ids: seq<string>)
    ensures forall id :: id in ids <==> exists k :: 0 <= k < |recs| && recs[k].intentId == id
  {
    if recs == [] then []
    else
      var init, r := recs[..|recs| - 1], recs[|recs| - 1];
      assert recs == init + [r];
      if r.intentId in Order(init) then Order(init) else Order(init) + [r.intentId]
  }

  function OfIntent(id: string): VRecord -> bool { (r: VRecord) => r.intentId == id }

  function Of(recs: seq<VRecord>, id: string): seq<VRecord> { Seqs.Filter(recs, OfIntent(id)) }

  lemma OfOrdered(recs: seq<VRecord>, id: string)
    requires id in Order(recs)
    ensures Of(recs, id) != []
  {
    var k :| 0 <= k < |recs| && recs[k].intentId == id;
    Seqs.FilterMembers(recs, OfIntent(id));
    assert recs[k] in Of(recs, id);
  }

  function IntentFindings(h: Digest, recs: seq<VRecord>, ids: seq<string>): seq<Finding>
    requires forall id :: id in ids ==> id in Order(recs)
  {
    if ids == [] then []
    else
      OfOrdered(recs, ids[|ids| - 1]);
      IntentFindings(h, recs, ids[..|ids| - 1]) + [Examine(h, ids[|ids| - 1], Of(recs, ids[|ids| - 1]))]
  }

  function Worse(a: Verdict, b: Verdict): Verdict {
    if a == Refuted || b == Refuted then Refuted
    else if a == Unverifiable || b == Unverifiable then Unverifiable
    else Verified
  }

  /** REFUTED beats UNVERIFIABLE beats VERIFIED. */
  function Overall(fs: seq<Finding>): (v: Verdict)
    ensures v == Refuted <==> exists k :: 0 <= k < |fs| && fs[k].verdict == Refuted
    ensures v == Verified <==> forall k :: 0 <= k < |fs| ==> fs[k].verdict == Verified
  {
    if fs == [] then Verified
    else
      var init, last := fs[..|fs| - 1], fs[|fs| - 1];
      assert fs == init + [last];
      Worse(Overall(init), last.verdict)
  }

  function FeedFindings(found: seq<Finding>, recs: seq<VRecord>): seq<Finding> {
    found + (if recs == [] then [Finding("feed", Unverifiable, "empty")] else [])
    + NumberFindings(recs, 0) + KeyFindings(recs)
  }

  function ReportOn(h: Digest, found: seq<Finding>, recs: seq<VRecord>): Report {
    var feed, intents := FeedFindings(found, recs), IntentFindings(h, recs, Order(recs));
    Report(feed, intents, Overall(feed + intents))
  }

  // ---------------------------------------------------- the Go verifier

  method TrajectoryHash(h: Digest, recs: seq<VRecord>) returns (hash: Bytes)
    ensures hash == Audit.HashOf(h, Events(recs))
  {
    hide Audit.Field, Itoa;
    var written: Bytes := "";
    for k := 0 to |recs|
      invariant written == Audit.Encode(Events(recs[..k]))
    {
      hide Audit.Encode;
      var r := recs[k];
      assert Events(recs[..k + 1]) == Events(recs[..k]) + [Audit.Event(r.clock, r.typ, r.detail)];
      Audit.EncodeSnoc(Events(recs[..k]), Audit.Event(r.clock, r.typ, r.detail));
      written := written + (Audit.Field(Itoa(r.clock)) + Audit.Field(r.typ) + Audit.Field(r.detail));
    }
    assert recs[..|recs|] == recs;
    hash := h(written);
  }

  method VerifyIntent(h: Digest, id: string, recs: seq<VRecord>) returns (f: Finding)
    requires recs != []
    ensures f == Examine(h, id, recs) && Expected(h, id, Sorted(recs), f)
  {
    hide Sort, IsKnown, EndsIntent, Itoa, Expected;
    var sorted := Sorted(recs);
    ExaminedAsExpected(h, id, sorted);
    for i := 0 to |sorted|
      invariant FirstGap(sorted, 0) == FirstGap(sorted, i)
    {
      var r := sorted[i];
      if r.clock != i {
        if i > 0 && r.clock == sorted[i - 1].clock {
          return Finding(id, Refuted, "intent-seq-dup:" + Itoa(r.clock));
        }
        return Finding(id, Refuted, "intent-seq-gap:" + Itoa(r.clock) + ":" + Itoa(i));
      }
    }
    f := VerifyShape(h, id, sorted);
  }

  /** Checks 2 to 7, on contiguous records. */
  method VerifyShape(h: Digest, id: string, sorted: seq<VRecord>) returns (f: Finding)
    requires sorted != [] && FirstGap(sorted, 0) == |sorted|
    ensures f == Examined(h, id, sorted)
  {
    hide FirstGap, IsKnown, EndsIntent, Itoa, Events, FirstUnknown, FirstHashed, AchievedIn;
    if sorted[0].typ != "DECLARED" {
      return Finding(id, Refuted, "missing-declared");
    }
    if sorted[0].detail != id {
      return Finding(id, Refuted, "declared-detail-mismatch");
    }
    var unknown := CheckTypes(id, sorted);
    if unknown.Some? {
      return unknown.value;
    }
    var last := sorted[|sorted| - 1];
    var hashed := CheckPlacement(id, sorted);
    if hashed.Some? {
      return hashed.value;
    }
    if last.hash == "" {
      return Finding(id, Unverifiable, "no-terminal-hash");
    }
    if !EndsIntent(last.typ) {
      return Finding(id, Refuted, "terminal-type:" + last.typ);
    }
    var achieved := CountAchieved(sorted);
    if achieved > 1 {
      return Finding(id, Refuted, "duplicate-achieved");
    }
    if achieved == 1 && last.typ != "ACHIEVED" {
      return Finding(id, Refuted, "achieved-not-terminal");
    }
    var missing := CheckTrace(id, last);
    if missing.Some? {
      return missing.value;
    }
    var got := TrajectoryHash(h, sorted);
    if got != last.hash {
      return Finding(id, Refuted, "hash-mismatch");
    }
    return Finding(id, Verified, "");
  }

  /** The closed event-type set. */
  method CheckTypes(id: string, sorted: seq<VRecord>) returns (f: Option<Finding>)
    ensures var unknown := FirstUnknown(sorted, 0);
      f == if unknown < |sorted|
           then Some(Finding(id, Unverifiable, "unknown-event-type:" + sorted[unknown].typ)) else None
  {
    hide IsKnown;
    for i := 0 to |sorted|
      invariant FirstUnknown(sorted, 0) == FirstUnknown(sorted, i)
    {
      if !IsKnown(sorted[i].typ) {
        return Some(Finding(id, Unverifiable, "unknown-event-type:" + sorted[i].typ));
      }
    }
    return None;
  }

  /** Only the record in terminal position may carry a hash. */
  method CheckPlacement(id: string, sorted: seq<VRecord>) returns (f: Option<Finding>)
    requires sorted != []
    ensures var hashed := FirstHashed(sorted, 0, |sorted| - 1);
      f == if hashed < |sorted| - 1
           then Some(Finding(id, Refuted, "hash-on-nonterminal:" + Itoa(sorted[hashed].clock))) else None
  {
    hide Itoa;
    for i := 0 to |sorted| - 1
      invariant FirstHashed(sorted, 0, |sorted| - 1) == FirstHashed(sorted, i, |sorted| - 1)
    {
      if sorted[i].hash != "" {
        return Some(Finding(id, Refuted, "hash-on-nonterminal:" + Itoa(sorted[i].clock)));
      }
    }
    return None;
  }

  /** The provenance fields of a grant or a shadow, in their fixed order. */
  method CheckTrace(id: string, last: VRecord) returns (f: Option<Finding>)
    ensures f == if NeedsTrace(last.typ) && last.key == ""
                 then Some(Finding(id, Refuted, "trace-field-missing:" + last.typ + ":" + "idempotency_key"))
                 else if NeedsTrace(last.typ) && last.specHash == ""
                 then Some(Finding(id, Refuted, "trace-field-missing:" + last.typ + ":" + "intent_spec_hash"))
                 else None
  {
    if NeedsTrace(last.typ) {
      var fields := [("idempotency_key", last.key), ("intent_spec_hash", last.specHash)];
      for k := 0 to |fields|
        invariant k > 0 ==> last.key != ""
        invariant k > 1 ==> last.specHash != ""
      {
        if fields[k].1 == "" {
          return Some(Finding(id, Refuted, "trace-field-missing:" + last.typ + ":" + fields[k].0));
        }
      }
    }
    return None;
  }

  method CountAchieved(sorted: seq<VRecord>) returns (n: nat)
    ensures n == AchievedIn(sorted)
  {
    n := 0;
    for i := 0 to |sorted|
      invariant n == AchievedIn(sorted[..i])
    {
      assert sorted[..i + 1][..i] == sorted[..i];
      if sorted[i].typ == "ACHIEVED" {
        n := n + 1;
      }
    }
    assert sorted[..|sorted|] == sorted;
  }

  /** Feed-level checks: numbering, then one grant per key. */
  method CheckFeed(recs: seq<VRecord>, found: seq<Finding>) returns (feed: seq<Finding>)
    ensures feed == FeedFindings(found, recs)
  {
    feed := found;
    if |recs| == 0 {
      feed := feed + [Finding("feed", Unverifiable, "empty")];
    }
    ghost var base := feed;
    assert base == found + (if recs == [] then [Finding("feed", Unverifiable, "empty")] else []);
    var numbers := CheckNumbers(recs);
    var keys := CheckKeys(recs);
    feed := feed + numbers + keys;
  }

  method CheckNumbers(recs: seq<VRecord>) returns (found: seq<Finding>)
    ensures found == NumberFindings(recs, 0)
  {
    hide Itoa;
    found := [];
    for i := 0 to |recs|
      invariant found == [] && NumberFindings(recs, 0) == NumberFindings(recs, i)
    {
      if recs[i].seqNo != i + 1 {
        found := found + [Finding("feed", Refuted, "seq-gap:" + Itoa(recs[i].seqNo) + ":" + Itoa(i + 1))];
        break;
      }
    }
  }

  method CheckKeys(recs: seq<VRecord>) returns (found: seq<Finding>)
    ensures found == KeyFindings(recs)
  {
    hide KeyFindings, GrantedKeys;
    found := [];
    var seen: set<string> := {};
    NoKeys();
    assert recs[..0] == [];
    for i := 0 to |recs|
      invariant found == KeyFindings(recs[..i]) && seen == GrantedKeys(recs[..i])
    {
      var r := recs[i];
      KeysSnoc(recs[..i], r);
      assert recs[..i + 1] == recs[..i] + [r];
      if r.typ != "ACHIEVED" || r.key == "" {
        continue;
      }
      if r.key in seen {
        found := found + [Finding("feed", Refuted, "duplicate-achieved-key:" + r.key)];
      }
      seen := seen + {r.key};
    }
    assert recs[..|recs|] == recs;
  }

  lemma NoKeys()
    ensures KeyFindings([]) == [] && GrantedKeys([]) == {}
  {}

  lemma KeysSnoc(recs: seq<VRecord>, r: VRecord)
    ensures GrantedKeys(recs + [r]) == GrantedKeys(recs) + (if Grants(r) then {r.key} else {})
    ensures KeyFindings(recs + [r]) == KeyFindings(recs) +
      (if Grants(r) && r.key in GrantedKeys(recs)
       then [Finding("feed", Refuted, "duplicate-achieved-key:" + r.key)] else [])
  {
    assert (recs + [r])[..|recs|] == recs;
  }

  /** `byIntent` and `order` index the records `recs`. */
  ghost predicate Indexed(byIntent: map<string, seq<VRecord>>, order: seq<string>, recs: seq<VRecord>) {
    && order == Order(recs)
    && (forall id :: id in byIntent <==> id in order)
    && (forall id :: id in byIntent ==> byIntent[id] == Of(recs, id))
  }

  /** Group the records by intent, remembering first-appearance order. */
  method Group(recs: seq<VRecord>) returns (byIntent: map<string, seq<VRecord>>, order: seq<string>)
    ensures order == Order(recs)
    ensures forall id :: id in order ==> id in byIntent && byIntent[id] == Of(recs, id)
  {
    hide Order, Of;
    byIntent, order := map[], [];
    NothingIndexed();
    assert recs[..0] == [];
    for k := 0 to |recs|
      invariant Indexed(byIntent, order, recs[..k])
    {
      hide *;
      var r := recs[k];
      IndexedStep(byIntent, order, recs[..k], r);
      assert recs[..k + 1] == recs[..k] + [r];
      if r.intentId !in byIntent {
        order := order + [r.intentId];
        byIntent := byIntent[r.intentId := []];
      }
      byIntent := byIntent[r.intentId := byIntent[r.intentId] + [r]];
    }
    assert recs[..|recs|] == recs;
  }

  lemma NothingIndexed()
    ensures Indexed(map[], [], [])
  {}

  lemma OrderSnoc(recs: seq<VRecord>, r: VRecord)
    ensures Order(recs + [r]) == if r.intentId in Order(recs) then Order(recs) else Order(recs) + [r.intentId]
  {
    assert (recs + [r])[..|recs|] == recs;
  }

  lemma OfSnoc(recs: seq<VRecord>, r: VRecord, id: string)
    ensures Of(recs + [r], id) == Of(recs, id) + (if r.intentId == id then [r] else [])
  {
    Seqs.FilterSnoc(recs, r, OfIntent(id));
  }

  lemma IndexedStep(byIntent: map<string, seq<VRecord>>, order: seq<string>, recs: seq<VRecord>, r: VRecord)
    requires Indexed(byIntent, order, recs)
    ensures var id, recs' := r.intentId, recs + [r];
      if id in byIntent then Indexed(byIntent[id := byIntent[id] + [r]], order, recs')
      else Indexed(byIntent[id := []][id := [] + [r]], order + [id], recs')
  {
    hide Of, Order;
    var id := r.intentId;
    var existing := if id in byIntent then byIntent[id] else [];
    var byIntent' := byIntent[id := existing + [r]];
    OrderSnoc(recs, r);
    if id !in byIntent {
      OfUnordered(recs, id);
      assert byIntent[id := []][id := [] + [r]] == byIntent';
    }
    forall x | x in byIntent'
      ensures byIntent'[x] == Of(recs + [r], x)
    {
      OfSnoc(recs, r, x);
    }
  }

  lemma OfUnordered(recs: seq<VRecord>, id: string)
    requires id !in Order(recs)
    ensures Of(recs, id) == []
  {
    Seqs.FilterNone(recs, OfIntent(id));
  }

  method Aggregate(fs: seq<Finding>) returns (overall: Verdict)
    ensures overall == Overall(fs)
  {
    overall := Verified;
    for k := 0 to |fs|
      invariant overall == Overall(fs[..k])
    {
      assert fs[..k + 1][..k] == fs[..k];
      match fs[k].verdict {
        case Refuted => overall := Refuted;
        case Unverifiable =>
          if overall != Refuted {
            overall := Unverifiable;
          }
        case Verified =>
      }
    }
    assert fs[..|fs|] == fs;
  }

  /** The full check set over raw file bytes. */
  method Verify(h: Digest, raw: Bytes) returns (rep: Report)
    ensures rep == ReportOn(h, FileFindings(Split(raw, '\n')), Recover(raw, GoodOn))
  {
    hide Split, Recover, FileFindings, Order, FeedFindings, IntentFindings;
    var recs, found := ParseFeed(raw);
    var feed := CheckFeed(recs, found);
    var byIntent, order := Group(recs);
    var intents := CheckIntents(h, recs, byIntent, order);
    var overall := Aggregate(feed + intents);
    rep := Report(feed, intents, overall);
  }

  method CheckIntents(h: Digest, ghost recs: seq<VRecord>, byIntent: map<string, seq<VRecord>>, order: seq<string>)
    returns (intents: seq<Finding>)
    requires order == Order(recs)
    requires forall id :: id in order ==> id in byIntent && byIntent[id] == Of(recs, id)
    ensures intents == IntentFindings(h, recs, Order(recs))
  {
    hide Order, Of, Examine;
    intents := [];
    for k := 0 to |order|
      invariant intents == IntentFindings(h, recs, order[..k])
    {
      var id := order[k];
      OfOrdered(recs, id);
      var f := VerifyIntent(h, id, byIntent[id]);
      intents := intents + [f];
      assert order[..k + 1][..k] == order[..k];
    }
    assert order[..|order|] == order;
  }
}
