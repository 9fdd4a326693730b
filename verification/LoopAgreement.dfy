// The loop's classes against the declarant's over the gate's outcomes: alike
// for plainly named criteria, and an outcome where they differ.

module LoopAgreement {
  import opened Text
  import opened Hashing
  import opened Intents
  import opened Lifecycle
  import opened Gate
  import opened GateSpec
  import opened LoopClasses
  import D = Declarant
  import GateClasses
  import Oracle
  import Vocabulary

  /** A criterion name that no reason of the vocabulary can be confused with. */
  predicate Plain(name: string) {
    && name != "" && ':' !in name && name != "idempotency-collision"
    && forall k :: 0 <= k < |TAGS| ==> !HasPrefix("unevaluable:" + name, TAGS[k])
  }

  predicate PlainNames(i: Intent) { forall k :: 0 <= k < Size(i) ==> Plain(CriterionName(i, k)) }

  lemma TagAligned(reason: string, k: nat)
    requires k < |TAGS| && HasPrefix(reason, TAGS[k]) && Proper(reason, k)
    ensures Aligned(reason)
  {
    TaggedBucket(reason, k);
    forall m | 0 <= m < |TAGS| && HasPrefix(reason, TAGS[m])
      ensures Proper(reason, m)
    {
      OneTag(reason, m, k);
    }
    assert reason[0] == 'u';
  }

  lemma RevokedAligned(ref: string)
    ensures Aligned("revoked:" + ref)
  {
    var reason := "revoked:" + ref;
    assert reason[0] == 'r';
    assert forall k :: 0 <= k < |TAGS| ==> TAGS[k][0] == 'u';
  }

  lemma NamedAligned(name: string)
    ensures Aligned("unevaluable:human-judgment:" + name) && Aligned("unevaluable:invalid-volatility:" + name)
  {
    assert TAGS[5] + ":" == "unevaluable:human-judgment:" && TAGS[4] + ":" == "unevaluable:invalid-volatility:";
    Starts(TAGS[5], ":" + name);
    Starts(TAGS[4], ":" + name);
    assert TAGS[5] + (":" + name) == "unevaluable:human-judgment:" + name;
    assert TAGS[4] + (":" + name) == "unevaluable:invalid-volatility:" + name;
    TagAligned("unevaluable:human-judgment:" + name, 5);
    TagAligned("unevaluable:invalid-volatility:" + name, 4);
  }

  lemma Starts(p: string, rest: string)
    ensures HasPrefix(p + rest, p)
  {}

  lemma FixedAligned()
    ensures Aligned(TAGS[0]) && Aligned(TAGS[1]) && Aligned(TAGS[2]) && Aligned(TAGS[3])
  {
    hide Aligned;
    TagAligned(TAGS[0], 0);
    TagAligned(TAGS[1], 1);
    TagAligned(TAGS[2], 2);
    TagAligned(TAGS[3], 3);
  }

  /** A refusal before scoring is always read alike. */
  lemma RefusalAligned(h: Digest, i: Intent, w: World, r: nat)
    requires r < SCORING_ROW
    ensures Aligned(RowAt(h, i, w, r).reason)
  {
    hide Aligned, FirstMisspelled;
    FixedAligned();
    RevokedAligned(i.resolution.revokedRef);
    RevokedAligned(Ref(w.first));
    NamedAligned(FirstHuman(i));
    NamedAligned(CriterionName(i, FirstMisspelled(i)));
  }

  lemma UnscoredAligned(name: string)
    requires Plain(name)
    ensures Aligned("unevaluable:" + name)
  {
    assert ("unevaluable:" + name)[0] == 'u';
  }

  /** Joined plain names hold no colon, and only one name alone could be taken
      for a collision. */
  lemma JoinedAligned(names: seq<string>)
    requires names != [] && forall k :: 0 <= k < |names| ==> Plain(names[k])
    ensures Aligned(Join(names, ","))
  {
    hide *;
    PlainParts(names);
    JoinHas(names, ",", ':');
    NotCollision(names);
    ColonFreeAligned(Join(names, ","));
  }

  lemma ColonFreeAligned(s: string)
    requires ':' !in s && s != "idempotency-collision"
    ensures Aligned(s)
  {
    hide HasPrefix, Proper;
    NoTag(s);
  }

  lemma PlainParts(names: seq<string>)
    requires forall k :: 0 <= k < |names| ==> Plain(names[k])
    ensures forall k :: 0 <= k < |names| ==> ':' !in names[k] && names[k] != "idempotency-collision"
  {
    hide *;
    forall k | 0 <= k < |names|
      ensures ':' !in names[k] && names[k] != "idempotency-collision"
    {
      PlainPart(names[k]);
    }
  }

  lemma PlainPart(name: string)
    requires Plain(name)
    ensures ':' !in name && name != "idempotency-collision"
  {
    hide HasPrefix;
  }

  lemma PrefixHas(s: string, p: string, c: char)
    ensures HasPrefix(s, p) && c in p ==> c in s
  {}

  lemma NoTag(s: string)
    requires ':' !in s
    ensures forall k :: 0 <= k < |TAGS| ==> !HasPrefix(s, TAGS[k])
  {
    forall k | 0 <= k < |TAGS|
      ensures !HasPrefix(s, TAGS[k])
    {
      assert TAGS[k][11] == ':';
      PrefixHas(s, TAGS[k], ':');
    }
  }

  lemma NotCollision(names: seq<string>)
    requires names != [] && forall k :: 0 <= k < |names| ==> names[k] != "idempotency-collision"
    ensures Join(names, ",") != "idempotency-collision"
  {
    var p, joined := "idempotency-collision", Join(names, ",");
    Longer(names);
    NoCommaThere();
    hide Join;
    Vocabulary.JoinStart(names, p);
    assert HasPrefix(p, p);
  }

  lemma Longer(names: seq<string>)
    requires names != []
    ensures |names| > 1 ==> |Join(names, ",")| > |names[0]|
    ensures |names| == 1 ==> Join(names, ",") == names[0]
  {}

  lemma NoCommaThere()
    ensures ',' !in "idempotency-collision"
  {}

  lemma {:induction false} FailedPlain(i: Intent, w: World, from: nat)
    requires from <= Size(i) && PlainNames(i)
    ensures forall k :: 0 <= k < |FailedNames(i, w, from)| ==> Plain(FailedNames(i, w, from)[k])
    decreases Size(i) - from
  {
    hide Plain;
    if from < Size(i) {
      FailedPlain(i, w, from + 1);
    }
  }

  /** With plainly named criteria, the loop's class of every outcome of the gate
      stands for the declarant's. */
  lemma PlainNamesAgree(h: Digest, job: Job, w: World)
    requires PlainNames(job.intent)
    ensures var pc := Outcome(h, job, w).pc; Agrees(Name(pc.terminal), pc.reason)
  {
    hide Outcome, Word, RowAt, Decision, Agrees, Aligned, Plain, FirstUnscored, FailedNames, Join;
    var i := job.intent;
    var r := Decision(i, w);
    Oracle.ClassesAgree(h, job, w);
    FollowsTable(h, job, w);
    Conditions(i, w);
    if r < SCORING_ROW {
      RefusalAligned(h, i, w, r);
    } else if r == 8 {
      UnscoredAligned(CriterionName(i, FirstUnscored(i, w)));
    } else if r == 9 {
      FailedPlain(i, w, 0);
      JoinedAligned(FailedNames(i, w, 0));
    }
    ScoredReasons(h, i, w);
  }

  lemma ScoredReasons(h: Digest, i: Intent, w: World)
    ensures RowAt(h, i, w, 8).reason == "unevaluable:" + CriterionName(i, FirstUnscored(i, w))
    ensures RowAt(h, i, w, 9).reason == Join(FailedNames(i, w, 0), ",")
    ensures forall r :: 10 <= r < ROWS ==> TerminalOf(RowAt(h, i, w, r).kind) != FAILED
  {
    hide FirstUnscored, FailedNames, Join, FirstDrifted, FirstMisspelled, Id;
  }

  /** One outcome of the gate the two read differently: a failed criterion named
      "limit:daily" is denied by policy for the loop and unknown to the
      declarant. */
  lemma LoopDiffers(h: Digest)
    ensures var pc := Outcome(h, GateClasses.COLON_JOB, GateClasses.FAILING).pc;
      && pc == Done(FAILED, "limit:daily") && BucketOf("FAILED", pc.reason) == Denied
      && D.Classify("FAILED", pc.reason).class_ == D.Unknown
  {
    hide Outcome, D.Classify, BucketOf;
    GateClasses.ColonNameIsUnknown(h);
    ColonOutcome(h);
    Misaligned();
  }

  lemma ColonOutcome(h: Digest)
    ensures Outcome(h, GateClasses.COLON_JOB, GateClasses.FAILING).pc == Done(FAILED, "limit:daily")
  {
    hide Outcome, Decision, RowAt, Word, Join, FailedNames;
    var i, w := GateClasses.COLON_JOB.intent, GateClasses.FAILING;
    GateClasses.ColonRow(i, w);
    FollowsTable(h, GateClasses.COLON_JOB, w);
    ScoredReasons(h, i, w);
    GateClasses.ScoreRowsFail(h, i, w);
    OneFailed(i, w);
  }

  lemma OneFailed(i: Intent, w: World)
    requires i == GateClasses.COLON_JOB.intent && w == GateClasses.FAILING
    ensures Join(FailedNames(i, w, 0), ",") == "limit:daily"
  {
    assert i.spec.criteria[0].name == "limit:daily" && Size(i) == 1;
    assert FailedNames(i, w, 1) == [];
    assert FailedNames(i, w, 0) == ["limit:daily"];
  }
}
