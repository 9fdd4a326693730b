// The client's conclusions against the gate's behaviour: both paths agree,
// a safe retry reserved nothing, and when a refusal falls outside the
// vocabulary.

module GateClasses {
  import opened Text
  import opened Hashing
  import opened Intents
  import opened Lifecycle
  import opened Gate
  import opened GateInvariant
  import opened GateSpec
  import opened Declarant
  import Authorization
  import GateTheorems
  import Idempotency

  // ---------------------------------------------------- both paths agree

  /** The last record of a refusal classifies as its synchronous result does. */
  lemma RefusalAgrees(kind: Kind, detail: string, reason: string)
    requires RefusalShape(kind, detail, reason)
    ensures ClassifyRecord(Name(kind), detail) == Classify(Name(TerminalOf(kind)), reason)
  {
    hide ClassifyFailed, ClassifyAtDispatch;
    if kind == UNEVALUABLE {
      UnevaluableAgrees(detail, reason);
    }
  }

  lemma UnevaluableAgrees(detail: string, reason: string)
    requires RefusalShape(UNEVALUABLE, detail, reason)
    ensures ClassifyRecord("UNEVALUABLE", detail) == ClassifyFailed(reason)
  {
    hide ClassifyFailed, RefusalShape;
    if HasPrefix(detail, Say(Phrase.HumanJudgment)) {
      HumanShape(detail, reason);
      HumanAgrees(detail);
    } else if HasPrefix(detail, Say(InvalidVolatility)) {
      VolatilityShape(detail, reason);
      VolatilityAgrees(detail, reason);
    } else {
      PlainAgrees(detail, reason);
    }
  }

  lemma HumanShape(detail: string, reason: string)
    requires RefusalShape(UNEVALUABLE, detail, reason) && HasPrefix(detail, "human-judgment:")
    ensures reason == "unevaluable:" + detail
  {
    assert detail[0] == 'h';
  }

  lemma VolatilityShape(detail: string, reason: string)
    requires RefusalShape(UNEVALUABLE, detail, reason) && HasPrefix(detail, "invalid-volatility:")
    ensures HasPrefix(reason, "unevaluable:invalid-volatility:")
  {
    VolatilityOnly(detail);
    hide HasPrefix;
  }

  lemma VolatilityOnly(detail: string)
    requires HasPrefix(detail, "invalid-volatility:")
    ensures detail != "absent-key" && !HasPrefix(detail, "unattested-spec:") && !HasPrefix(detail, "invalid-posture:")
    ensures !HasPrefix(detail, "empty-criteria:") && !HasPrefix(detail, "human-judgment:")
  {
    assert detail[0] == 'i' && detail[8] == 'v';
  }

  lemma PlainAgrees(detail: string, reason: string)
    requires RefusalShape(UNEVALUABLE, detail, reason)
    requires !HasPrefix(detail, Say(Phrase.HumanJudgment)) && !HasPrefix(detail, Say(InvalidVolatility))
    ensures ClassifyRecord("UNEVALUABLE", detail) == ClassifyFailed(reason)
  {
    PlainReason(detail, reason);
    hide ClassifyFailed, HasPrefix, RefusalShape;
  }

  /** The reason that goes with each remaining detail. */
  lemma PlainReason(detail: string, reason: string)
    requires RefusalShape(UNEVALUABLE, detail, reason)
    requires !HasPrefix(detail, Say(Phrase.HumanJudgment)) && !HasPrefix(detail, Say(InvalidVolatility))
    ensures if detail == "absent-key" then reason == "unevaluable:absent-key"
            else if HasPrefix(detail, "unattested-spec:") then reason == "unevaluable:unattested-spec"
            else if HasPrefix(detail, "invalid-posture:") then reason == "unevaluable:invalid-posture"
            else HasPrefix(detail, "empty-criteria:") && reason == "unevaluable:empty-criteria"
  {
    FirstLetters(detail);
    hide HasPrefix;
  }

  /** The details of the refusals start with letters of their own. */
  lemma FirstLetters(detail: string)
    ensures HasPrefix(detail, "unattested-spec:") ==> detail != "" && detail[0] == 'u'
    ensures HasPrefix(detail, "invalid-posture:") ==> detail != "" && detail[0] == 'i'
    ensures HasPrefix(detail, "empty-criteria:") ==> detail != "" && detail[0] == 'e'
    ensures detail == "absent-key" ==> detail[0] == 'a'
  {}

  lemma HumanAgrees(detail: string)
    requires HasPrefix(detail, "human-judgment:")
    ensures ClassifyRecord("UNEVALUABLE", detail) == ClassifyFailed("unevaluable:" + detail)
  {
    hide ClassifyFailed;
    assert detail[0] == 'h';
  }

  lemma VolatilityAgrees(detail: string, reason: string)
    requires HasPrefix(detail, "invalid-volatility:") && HasPrefix(reason, "unevaluable:invalid-volatility:")
    ensures ClassifyRecord("UNEVALUABLE", detail) == ClassifyFailed(reason) == Verdict(SpecDefect, true)
  {
    hide ClassifyFailed, ClassifyRecord;
    VolatilityRecord(detail);
    PrefixAfter("unevaluable:", "invalid-volatility:", detail);
    assert "unevaluable:" + "invalid-volatility:" == "unevaluable:invalid-volatility:";
    VolatilityFailed("unevaluable:" + detail);
    VolatilityFailed(reason);
  }

  lemma VolatilityRecord(detail: string)
    requires HasPrefix(detail, "invalid-volatility:")
    ensures ClassifyRecord("UNEVALUABLE", detail) == ClassifyFailed("unevaluable:" + detail)
  {
    hide ClassifyFailed;
    assert detail[0] == 'i' && detail[8] == 'v';
  }

  lemma VolatilityFailed(reason: string)
    requires HasPrefix(reason, "unevaluable:invalid-volatility:")
    ensures ClassifyFailed(reason) == Verdict(SpecDefect, true)
  {
    assert reason[12] == 'i' && reason[20] == 'v';
  }

  lemma PrefixAfter(p: string, q: string, s: string)
    requires HasPrefix(s, q)
    ensures HasPrefix(p + s, p + q)
  {}

  /** Agreement: for every completed run, the synchronous terminal and the
      record in terminal position lead to the same class and the same retry
      advice. */
  lemma PathsAgree(h: Digest, job: Job, s: Snap)
    requires RunInv(h, job, s) && s.pc.Done? && s.recs != []
    ensures var last := s.recs[|s.recs| - 1];
      ClassifyRecord(last.typ, last.detail) == Classify(Name(s.pc.terminal), s.pc.reason)
  {
    hide Interior, Id, RefusalShape, ClassifyRecord, Classify;
    var last := s.recs[|s.recs| - 1];
    assert Closing(h, job, s.pc, s.recs);
    if Traced(s.pc.terminal) {
      TracedAgrees(s.pc.terminal, last.detail, s.pc.reason);
    } else {
      var kind :|
        last.typ == Name(kind) && TerminalOf(kind) == s.pc.terminal && RefusalShape(kind, last.detail, s.pc.reason);
      RefusalAgrees(kind, last.detail, s.pc.reason);
    }
  }

  lemma TracedAgrees(kind: Kind, detail: string, reason: string)
    requires Traced(kind)
    ensures ClassifyRecord(Name(kind), detail) == Classify(Name(kind), reason)
  {
    hide ClassifyFailed, ClassifyAtDispatch;
  }

  // ---------------------------------------------------- the class of each row

  lemma RevokedReason(x: string)
    ensures ClassifyFailed(Say(RevokedBy) + x) == ClassifyAtDispatch(Say(RevokedBy) + x) == Verdict(Revoked, true)
  {
    assert (Say(RevokedBy) + x)[0] == 'r';
  }

  lemma FixedReasons()
    ensures ClassifyFailed(Say(NoKey)) == Verdict(SDKBug, true)
    ensures ClassifyFailed(Say(NoAttestation)) == Verdict(SpecUnattested, true)
    ensures ClassifyFailed(Say(NoPosture)) == Verdict(SpecDefect, true)
    ensures ClassifyFailed(Say(NoCriteria)) == Verdict(SpecDefect, true)
    ensures ClassifyAtDispatch(Say(Collided)) == Verdict(AlreadyReserved, false)
  {
    assert Say(Collided)[0] == 'i';
  }

  lemma NamedReasons(x: string)
    ensures ClassifyFailed(Say(NoHuman) + x) == Verdict(Class.HumanJudgment, true)
    ensures ClassifyFailed(Say(NoVolatility) + x) == Verdict(SpecDefect, true)
    ensures ClassifyAtDispatch(Say(Drifted) + x) == Verdict(FactDrift, true)
  {
    HumanReason(x);
    VolatilityReason(x);
  }

  lemma HumanReason(x: string)
    ensures ClassifyFailed(Say(NoHuman) + x) == Verdict(Class.HumanJudgment, true)
  {
    var reason := Say(NoHuman) + x;
    assert reason[12] == 'h';
    assert reason[27 - 1] == ':';
  }

  lemma VolatilityReason(x: string)
    ensures ClassifyFailed(Say(NoVolatility) + x) == Verdict(SpecDefect, true)
  {
    hide ClassifyFailed;
    VolatilityFailed(Say(NoVolatility) + x);
  }

  /** A criterion name that no fixed reason of the vocabulary can be confused
      with. */
  predicate Ordinary(name: string) {
    && name != "absent-key" && name != "unattested-spec" && name != "invalid-posture" && name != "empty-criteria"
    && !HasPrefix(name, "invalid-volatility:") && !HasPrefix(name, "human-judgment:")
  }

  lemma TailOf(p: string, a: string, b: string)
    ensures p + a == p + b <==> a == b
    ensures HasPrefix(p + a, p + b) <==> HasPrefix(a, b)
  {
    assert (p + a)[|p|..] == a && (p + b)[|p|..] == b;
    if HasPrefix(p + a, p + b) {
      assert forall k :: 0 <= k < |b| ==> a[k] == (p + a)[|p| + k] && b[k] == (p + b)[|p| + k];
    }
  }

  lemma SpelledAbsent()
    ensures "unevaluable:absent-key" == "unevaluable:" + "absent-key"
  {}

  lemma SpelledUnattested()
    ensures "unevaluable:unattested-spec" == "unevaluable:" + "unattested-spec"
  {}

  lemma SpelledPosture()
    ensures "unevaluable:invalid-posture" == "unevaluable:" + "invalid-posture"
  {}

  lemma SpelledEmpty()
    ensures "unevaluable:empty-criteria" == "unevaluable:" + "empty-criteria"
  {}

  lemma SpelledVolatility()
    ensures "unevaluable:invalid-volatility:" == "unevaluable:" + "invalid-volatility:"
  {}

  lemma SpelledHuman()
    ensures "unevaluable:human-judgment:" == "unevaluable:" + "human-judgment:"
  {}

  /** An unscored criterion is reported Unevaluable exactly when its name is
      ordinary, and is never Unknown. */
  lemma UnscoredReason(name: string)
    ensures var v := ClassifyFailed(Say(Unscored) + name);
      v.class_ != Unknown && v.retrySafe && (v.class_ == Class.Unevaluable <==> Ordinary(name))
  {
    UnscoredFixed(name);
    UnscoredNamed(name);
    UnscoredStart(name);
    hide HasPrefix;
  }

  lemma UnscoredFixed(name: string)
    ensures var u := "unevaluable:";
      && (u + name == "unevaluable:absent-key" <==> name == "absent-key")
      && (u + name == "unevaluable:unattested-spec" <==> name == "unattested-spec")
      && (u + name == "unevaluable:invalid-posture" <==> name == "invalid-posture")
      && (u + name == "unevaluable:empty-criteria" <==> name == "empty-criteria")
  {
    var u := "unevaluable:";
    SpelledAbsent();
    SpelledUnattested();
    SpelledPosture();
    SpelledEmpty();
    TailOf(u, name, "absent-key");
    TailOf(u, name, "unattested-spec");
    TailOf(u, name, "invalid-posture");
    TailOf(u, name, "empty-criteria");
  }

  lemma UnscoredNamed(name: string)
    ensures var u := "unevaluable:";
      && (HasPrefix(u + name, "unevaluable:invalid-volatility:") <==> HasPrefix(name, "invalid-volatility:"))
      && (HasPrefix(u + name, "unevaluable:human-judgment:") <==> HasPrefix(name, "human-judgment:"))
  {
    hide HasPrefix;
    SpelledVolatility();
    SpelledHuman();
    TailOf("unevaluable:", name, "invalid-volatility:");
    TailOf("unevaluable:", name, "human-judgment:");
  }

  lemma UnscoredStart(name: string)
    ensures HasPrefix("unevaluable:" + name, "unevaluable:") && !HasPrefix("unevaluable:" + name, "revoked:")
  {
    assert ("unevaluable:" + name)[0] == 'u';
  }

  /** Joined failed names that the vocabulary cannot place. */
  predicate Opaque(names: string) {
    names == "" || (':' in names && !HasPrefix(names, "unevaluable:") && !HasPrefix(names, "revoked:"))
  }

  lemma HasColon(names: string, p: string)
    requires HasPrefix(names, p) && ':' in p
    ensures ':' in names && names != ""
  {
    var k :| 0 <= k < |p| && p[k] == ':';
    assert names[k] == ':';
  }

  lemma JoinedReason(names: string)
    ensures var v := ClassifyFailed(names);
      && (v.class_ == Unknown <==> Opaque(names)) && (v.retrySafe <==> v.class_ != Unknown)
      && (v.class_ == PolicyDenied <==> names != "" && ':' !in names)
  {
    ColonWords();
    if HasPrefix(names, "unevaluable:") {
      HasColon(names, "unevaluable:");
    }
    if HasPrefix(names, "revoked:") {
      HasColon(names, "revoked:");
    }
    ReservedWords(names);
  }

  lemma ColonWords()
    ensures ':' in "unevaluable:" && ':' in "revoked:"
  {
    assert "unevaluable:"[11] == ':' && "revoked:"[7] == ':';
  }

  lemma ReservedWords(names: string)
    ensures names == "unevaluable:absent-key" || names == "unevaluable:unattested-spec" ||
            names == "unevaluable:invalid-posture" || names == "unevaluable:empty-criteria" ||
            HasPrefix(names, "unevaluable:invalid-volatility:") || HasPrefix(names, "unevaluable:human-judgment:")
            ==> HasPrefix(names, "unevaluable:")
  {}

  ghost predicate ClassOfRow(i: Intent, w: World, r: nat, v: Verdict) {
    && (r == 0 ==> v == Verdict(SDKBug, true))
    && (r == 1 || r == 3 || r == 11 ==> v == Verdict(Revoked, true))
    && (r == 2 ==> v == Verdict(SpecUnattested, true))
    && (r == 4 || r == 6 || r == 7 ==> v == Verdict(SpecDefect, true))
    && (r == 5 ==> v == Verdict(Class.HumanJudgment, true))
    && (r == 8 ==> v.class_ != Unknown && v.retrySafe
                   && (v.class_ == Class.Unevaluable <==> Ordinary(CriterionName(i, FirstUnscored(i, w)))))
    && (r == 9 ==> var names := Join(FailedNames(i, w, 0), ",");
                   && (v.class_ == Unknown <==> Opaque(names)) && (v.retrySafe <==> v.class_ != Unknown)
                   && (v.class_ == PolicyDenied <==> names != "" && ':' !in names))
    && (r == 10 ==> v == Verdict(FactDrift, true))
    && (r == 12 ==> v == Verdict(ShadowRecorded, true))
    && (r == 13 ==> v == Verdict(AlreadyReserved, false))
    && (r == 14 ==> v == Verdict(Proceed, false))
  }

  lemma RowClass(h: Digest, i: Intent, w: World, r: nat)
    requires r < ROWS
    ensures var row := RowAt(h, i, w, r);
      ClassOfRow(i, w, r, Classify(Name(TerminalOf(row.kind)), row.reason))
  {
    hide Say, ClassifyFailed, ClassifyAtDispatch, Opaque, Ordinary, Join, FirstUnscored, FirstDrifted, FailedNames,
         FirstMisspelled, Id;
    FixedReasons();
    RevokedReason(i.resolution.revokedRef);
    RevokedReason(Ref(w.first));
    RevokedReason(Ref(w.edge));
    NamedReasons(FirstHuman(i));
    NamedReasons(CriterionName(i, FirstMisspelled(i)));
    NamedReasons(CriterionName(i, FirstDrifted(i, w)));
    UnscoredReason(CriterionName(i, FirstUnscored(i, w)));
    JoinedReason(Join(FailedNames(i, w, 0), ","));
  }

  /** Total classification: every completed call gets the class of the row that
      decided it. */
  lemma OutcomeClass(h: Digest, job: Job, w: World)
    ensures var s := Outcome(h, job, w);
      ClassOfRow(job.intent, w, Decision(job.intent, w), Classify(Name(s.pc.terminal), s.pc.reason))
  {
    hide Outcome, RowAt, Decision, ClassOfRow, Classify, Word;
    FollowsTable(h, job, w);
    RowClass(h, job.intent, w, Decision(job.intent, w));
  }

  /** Unknown is reached exactly by failed criteria whose joined names the
      vocabulary cannot place. */
  lemma UnknownExactly(h: Digest, job: Job, w: World)
    ensures var s := Outcome(h, job, w);
      Classify(Name(s.pc.terminal), s.pc.reason).class_ == Unknown <==>
      Decision(job.intent, w) == 9 && Opaque(Join(FailedNames(job.intent, w, 0), ","))
  {
    hide Outcome, Decision, Classify, Opaque, Ordinary, Join, FailedNames;
    OutcomeClass(h, job, w);
  }

  const COLON_SPEC := Spec("pay", [Criterion("limit:daily", 1.0, "stable")], "", "enforce", [])
  const COLON_JOB := Job(Intent("seed", COLON_SPEC, "key", "", "hash", Resolution(true, "store", "", "")), "")
  const FAILING := World((k: nat) => FAIL, (k: nat) => PASS, None, None, true)

  /** The vocabulary is not closed over every attested spec: one failed
      criterion named "limit:daily" is surfaced as Unknown. */
  lemma ColonNameIsUnknown(h: Digest)
    ensures var s := Outcome(h, COLON_JOB, FAILING);
      s.pc.terminal == FAILED && Classify(Name(s.pc.terminal), s.pc.reason).class_ == Unknown
  {
    hide Outcome, Classify, Decision, RowAt;
    var i, w := COLON_JOB.intent, FAILING;
    Conditions(i, w);
    ColonRow(i, w);
    UnknownExactly(h, COLON_JOB, w);
    FollowsTable(h, COLON_JOB, w);
    ScoreRowsFail(h, i, w);
  }

  lemma ColonRow(i: Intent, w: World)
    requires i == COLON_JOB.intent && w == FAILING
    ensures Decision(i, w) == 9 && Opaque(Join(FailedNames(i, w, 0), ","))
  {
    assert i.spec.criteria[0].name == "limit:daily" && Size(i) == 1;
    assert FailedNames(i, w, 1) == [];
    assert FailedNames(i, w, 0) == ["limit:daily"];
    assert "limit:daily"[5] == ':' && "limit:daily"[0] == 'l';
    GateTheorems.MisspelledAt(i);
    UnscoredAt(i, w);
    hide FirstMisspelled, FirstUnscored, FirstDrifted, Opaque, Join, FailedNames;
    Conditions(i, w);
    assert Applies(i, w, 9);
    assert forall j :: 0 <= j < 9 ==> !Applies(i, w, j);
  }

  lemma ScoreRowsFail(h: Digest, i: Intent, w: World)
    ensures TerminalOf(RowAt(h, i, w, 9).kind) == FAILED
  {
    hide Join, FailedNames, FirstUnscored, FirstMisspelled, FirstDrifted, Say;
  }

  predicate WellNamed(i: Intent) {
    forall k :: 0 <= k < |i.spec.criteria| ==> i.spec.criteria[k].name != "" && ':' !in i.spec.criteria[k].name
  }

  lemma {:induction false} FailedAreNames(i: Intent, w: World, from: nat)
    requires from <= Size(i) && WellNamed(i)
    ensures forall k :: 0 <= k < |FailedNames(i, w, from)| ==>
      FailedNames(i, w, from)[k] != "" && ':' !in FailedNames(i, w, from)[k]
    decreases Size(i) - from
  {
    if from < Size(i) {
      FailedAreNames(i, w, from + 1);
    }
  }

  /** Non-empty, colon-free criterion names keep every outcome inside the
      vocabulary, and every failed-criteria refusal a policy denial. */
  lemma WellNamedNeverUnknown(h: Digest, job: Job, w: World)
    requires WellNamed(job.intent)
    ensures var s := Outcome(h, job, w); var c := Classify(Name(s.pc.terminal), s.pc.reason).class_;
      c != Unknown && (Decision(job.intent, w) == 9 ==> c == PolicyDenied)
  {
    hide Outcome, Decision, Classify, Ordinary, Join, FailedNames, Applies;
    OutcomeClass(h, job, w);
    FailedAreNames(job.intent, w, 0);
    var names := FailedNames(job.intent, w, 0);
    JoinHas(names, ",", ':');
    assert names != [] ==> names[0] != "";
    Conditions(job.intent, w);
  }

  // ---------------------------------------------------- a safe retry reserved nothing

  lemma {:induction false} NoReserveInScores(i: Intent, w: World, from: nat, to: nat)
    requires from <= to <= Size(i)
    ensures AskReserve !in ScorePairs(i, w, from, to)
    decreases (to as int) - (from as int)
  {
    hide ScoreText;
    if from < to {
      NoReserveInScores(i, w, from + 1, to);
    }
  }

  lemma {:induction false} NoReserveInRechecks(i: Intent, w: World, from: nat, to: nat)
    requires from <= to <= Size(i)
    ensures AskReserve !in RecheckPairs(i, w, from, to)
    decreases (to as int) - (from as int)
  {
    hide ScoreText;
    if from < to {
      NoReserveInRechecks(i, w, from + 1, to);
    }
  }

  lemma ReserveAtEdge(h: Digest, i: Intent, w: World)
    ensures AskReserve in EdgeWord(h, i, w) <==> w.edge.None? && i.spec.posture != "shadow"
  {
    hide Say;
  }

  /** The key is asked for exactly when the last two rows decide. */
  lemma ReserveAsked(h: Digest, i: Intent, w: World)
    ensures AskReserve in Word(h, i, w) <==> Decision(i, w) >= 13
  {
    hide Decision, RowAt, ScoreWord, Say, Id, Applies;
    if Decision(i, w) >= SCORING_ROW {
      ReserveScored(h, i, w);
    }
  }

  lemma ReserveScored(h: Digest, i: Intent, w: World)
    requires Decision(i, w) >= SCORING_ROW
    ensures AskReserve in ScoreWord(h, i, w) <==> Decision(i, w) >= 13
  {
    hide FirstUnscored, FirstDrifted, FirstMisspelled, FailedNames, Decision, RowAt, ScorePairs, RecheckPairs, EdgeWord,
         Say, Id, Applies, Join, ScoreText;
    var r := Decision(i, w);
    Conditions(i, w);
    ReserveAtEdge(h, i, w);
    NoReserveInScores(i, w, 0, Through(FirstUnscored(i, w), Size(i)));
    NoReserveInRechecks(i, w, 0, Through(FirstDrifted(i, w), Size(i)));
    assert r > 8 ==> !Applies(i, w, 8);
    assert r > 9 ==> !Applies(i, w, 9);
    assert r > 10 ==> !Applies(i, w, 10);
    assert r > 11 ==> !Applies(i, w, 11);
    assert r > 12 ==> !Applies(i, w, 12);
  }

  /** A same-key retry is advised only after calls that left the reservation
      store exactly as they found it. */
  lemma SafeRetryReservedNothing(h: Digest, job: Job, w: World, store: Idempotency.Store)
    requires w.granted == Idempotency.Free(store, job.intent.key)
    requires var s := Outcome(h, job, w); Classify(Name(s.pc.terminal), s.pc.reason).retrySafe
    ensures Authorization.AfterTrace(store, h, job.intent, Outcome(h, job, w).trace) == store
  {
    hide Outcome, Classify, Decision, Word, Opaque, Ordinary, Join, FailedNames;
    OutcomeClass(h, job, w);
    FollowsTable(h, job, w);
    ReserveAsked(h, job.intent, w);
  }

  /** A call reserves its key exactly when it achieves. */
  lemma ReservesExactly(h: Digest, job: Job, w: World, store: Idempotency.Store)
    requires w.granted == Idempotency.Free(store, job.intent.key)
    ensures var s, i := Outcome(h, job, w), job.intent;
      Authorization.AfterTrace(store, h, i, s.trace).reserved ==
        if s.pc.terminal == ACHIEVED then store.reserved[i.key := Id(h, i)] else store.reserved
  {
    hide Outcome, Decision, Word, RowAt, GateSpec.Verdict, Idempotency.ReserveWrite, Id;
    FollowsTable(h, job, w);
    ReserveAsked(h, job.intent, w);
    GateTheorems.LastRow(h, job.intent, w);
    Conditions(job.intent, w);
  }
}
