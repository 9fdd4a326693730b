// Which specs the client's closed vocabulary covers: an intent can be surfaced
// as UNKNOWN for some answers of the scorer exactly when its criterion names
// say so.

module Vocabulary {
  import opened Text
  import opened Hashing
  import opened Intents
  import opened Lifecycle
  import opened Gate
  import opened GateSpec
  import opened Declarant
  import opened GateClasses
  import GateTheorems

  /** A call of this intent reaches the scorer, revocation permitting. */
  predicate Scorable(i: Intent) {
    && i.key != "" && i.resolution.revokedRef == "" && i.resolution.attested
    && (i.spec.posture == "enforce" || i.spec.posture == "shadow")
    && i.spec.humanJudgment == [] && i.spec.criteria != []
    && forall k :: 0 <= k < |i.spec.criteria| ==> KnownVolatility(i.spec.criteria[k])
  }

  /** An empty name, or a colon in a name where that one or an earlier one does
      not start as a reason of the vocabulary does. */
  predicate Unnameable(i: Intent) {
    || (exists k :: 0 <= k < Size(i) && CriterionName(i, k) == "")
    || (exists j, k :: 0 <= j <= k < Size(i) && !Placed(CriterionName(i, j)) && ':' in CriterionName(i, k))
  }

  ghost predicate Surfaced(h: Digest, job: Job, w: World) {
    var s := Outcome(h, job, w); Classify(Name(s.pc.terminal), s.pc.reason).class_ == Unknown
  }

  // ---------------------------------------------------- joined names

  lemma JoinStart(names: seq<string>, p: string)
    requires names != [] && ',' !in p
    ensures HasPrefix(Join(names, ","), p) <==> HasPrefix(names[0], p)
  {
    var first, all := names[0], Join(names, ",");
    if |names| > 1 {
      assert all == first + "," + Join(names[1..], ",");
      assert all[|first|] == ',';
      if HasPrefix(all, p) {
        assert |p| <= |first| by {
          assert forall k :: 0 <= k < |p| ==> p[k] == all[k] && p[k] in p;
        }
        assert forall k :: 0 <= k < |p| ==> p[k] == all[k] == first[k];
      }
    }
  }

  lemma NoComma()
    ensures ',' !in "unevaluable:" && ',' !in "revoked:"
  {}

  /** Joined failed names are opaque exactly when they are one empty name, or
      hold a colon after a first name that is not placed. */
  lemma OpaqueJoined(names: seq<string>)
    requires names != []
    ensures Opaque(Join(names, ",")) <==>
            names == [""] || (!Placed(names[0]) && exists k :: 0 <= k < |names| && ':' in names[k])
  {
    NoComma();
    JoinStart(names, "unevaluable:");
    JoinStart(names, "revoked:");
    JoinHas(names, ",", ':');
  }

  // ---------------------------------------------------- only such specs

  /** The failed names are names of the spec, in its order. */
  lemma {:induction false} FailedPlaces(i: Intent, w: World, from: nat)
    requires from <= Size(i)
    ensures var names := FailedNames(i, w, from);
      && (names != [] ==> exists j :: from <= j < Size(i) && StartsAt(i, w, names, j))
    decreases Size(i) - from
  {
    if from < Size(i) {
      var names := FailedNames(i, w, from);
      if w.declaration(from) == FAIL {
        assert names == [CriterionName(i, from)] + FailedNames(i, w, from + 1);
        assert names[1..] == FailedNames(i, w, from + 1);
        assert StartsAt(i, w, names, from);
      } else {
        assert names == FailedNames(i, w, from + 1);
        FailedPlaces(i, w, from + 1);
      }
    }
  }

  ghost predicate StartsAt(i: Intent, w: World, names: seq<string>, j: nat) {
    names != [] && j < Size(i) && names[0] == CriterionName(i, j) && names[1..] == FailedNames(i, w, j + 1)
  }

  lemma {:induction false} ColonPlace(i: Intent, w: World, from: nat) returns (k: nat)
    requires from <= Size(i) && exists p :: 0 <= p < |FailedNames(i, w, from)| && ':' in FailedNames(i, w, from)[p]
    ensures from <= k < Size(i) && ':' in CriterionName(i, k)
    decreases Size(i) - from
  {
    var names := FailedNames(i, w, from);
    if ':' in CriterionName(i, from) {
      return from;
    }
    var rest := FailedNames(i, w, from + 1);
    assert names == (if w.declaration(from) == FAIL then [CriterionName(i, from)] else []) + rest;
    hide CriterionName, FailedNames;
    var p :| 0 <= p < |names| && ':' in names[p];
    assert if |names| == |rest| then rest[p] == names[p] else rest[p - 1] == names[p];
    k := ColonPlace(i, w, from + 1);
  }

  lemma OnlyUnnameable(i: Intent, w: World)
    requires FailedNames(i, w, 0) != [] && Opaque(Join(FailedNames(i, w, 0), ","))
    ensures Unnameable(i)
  {
    hide Placed, Opaque;
    var names := FailedNames(i, w, 0);
    OpaqueJoined(names);
    FailedPlaces(i, w, 0);
    var j :| 0 <= j < Size(i) && StartsAt(i, w, names, j);
    if names != [""] {
      var p :| 0 <= p < |names| && ':' in names[p];
      if p == 0 {
        assert ':' in CriterionName(i, j);
      } else {
        assert names[p] == names[1..][p - 1];
        var k := ColonPlace(i, w, j + 1);
      }
    }
  }

  // ---------------------------------------------------- and every such spec

  /** Just these two criteria fail, and nothing else goes wrong. */
  function Failing(j: nat, k: nat): World {
    World((m: nat) => if m == j || m == k then FAIL else PASS, (m: nat) => PASS, None, None, true)
  }

  lemma {:induction false} FailedPair(i: Intent, j: nat, k: nat, from: nat)
    requires from <= Size(i) && j <= k < Size(i)
    ensures FailedNames(i, Failing(j, k), from) ==
            (if from <= j then [CriterionName(i, j)] else [])
            + (if j < k && from <= k then [CriterionName(i, k)] else [])
    decreases Size(i) - from
  {
    if from < Size(i) {
      FailedPair(i, j, k, from + 1);
    }
  }

  lemma PairDecides(i: Intent, j: nat, k: nat)
    requires Scorable(i) && j <= k < Size(i)
    ensures Decision(i, Failing(j, k)) == 9
  {
    var w := Failing(j, k);
    GateTheorems.MisspelledAt(i);
    UnscoredAt(i, w);
    FailedPair(i, j, k, 0);
    hide FirstMisspelled, FirstUnscored, FirstDrifted, FailedNames, Applies;
    Conditions(i, w);
    assert Applies(i, w, 9);
    assert forall r :: 0 <= r < 9 ==> !Applies(i, w, r);
  }

  lemma PairSurfaces(h: Digest, job: Job, j: nat, k: nat)
    requires Scorable(job.intent) && j <= k < Size(job.intent)
    requires var a, b := CriterionName(job.intent, j), CriterionName(job.intent, k);
      (j == k && a == "") || (!Placed(a) && ':' in b)
    ensures Surfaced(h, job, Failing(j, k))
  {
    hide Outcome, Classify, Decision, Opaque, Placed, Join, FailedNames;
    var i, w := job.intent, Failing(j, k);
    PairDecides(i, j, k);
    FailedPair(i, j, k, 0);
    var names := FailedNames(i, w, 0);
    assert names[0] == CriterionName(i, j) && names[|names| - 1] == CriterionName(i, k);
    OpaqueJoined(names);
    UnknownExactly(h, job, w);
  }

  lemma SurfacedOnly(h: Digest, job: Job, w: World)
    requires Surfaced(h, job, w)
    ensures Scorable(job.intent) && Unnameable(job.intent)
  {
    hide Outcome, Classify, Opaque, Join, FailedNames, FirstMisspelled, FirstUnscored, FirstDrifted, Applies,
         Unnameable;
    var i := job.intent;
    UnknownExactly(h, job, w);
    Conditions(i, w);
    GateTheorems.MisspelledAt(i);
    OnlyUnnameable(i, w);
  }

  /** The vocabulary fails to cover an intent, for some answers, exactly when the
      intent can reach the scorer and has unnameable criteria. */
  lemma UnknownPossible(h: Digest, job: Job)
    ensures (exists w: World :: Surfaced(h, job, w)) <==> Scorable(job.intent) && Unnameable(job.intent)
  {
    hide Surfaced, Scorable, Placed;
    var i := job.intent;
    if w: World :| Surfaced(h, job, w) {
      SurfacedOnly(h, job, w);
    }
    if Scorable(i) && Unnameable(i) {
      if k :| 0 <= k < Size(i) && CriterionName(i, k) == "" {
        PairSurfaces(h, job, k, k);
        assert Surfaced(h, job, Failing(k, k));
      } else {
        var j, k :| 0 <= j <= k < Size(i) && !Placed(CriterionName(i, j)) && ':' in CriterionName(i, k);
        PairSurfaces(h, job, j, k);
        assert Surfaced(h, job, Failing(j, k));
      }
    }
  }
}
