// The second implementation of the decision procedure
// (treasury/randomized_loop.py), predicting a whole stream of intents.

module Oracle {
  import opened Text
  import opened Hashing
  import opened Intents
  import opened Lifecycle
  import opened Gate
  import opened GateSpec
  import opened GateTheorems
  import opened GateRecords
  import D = Declarant
  import LoopClasses

  datatype PlanSpec = PlanSpec(posture: string, criteria: seq<Criterion>, humanJudgment: seq<string>)

  datatype Item = Item(seed: string, spec: int, specHash: string, key: string, outage: bool, drift: bool)

  datatype Pull = Pull(spec: int, at: nat, ref: string)

  /** Facts, attested specs, revocations and when they land, and the stream. */
  datatype Plan = Plan(facts: map<string, real>, specs: seq<PlanSpec>, pulls: seq<Pull>, items: seq<Item>)

  /** What the sampler guarantees of a plan. */
  ghost predicate ValidPlan(p: Plan) {
    && (forall k :: 0 <= k < |p.items| ==> p.items[k].spec < |p.specs|)
    && (forall k :: 0 <= k < |p.pulls| ==> 0 <= p.pulls[k].spec && p.pulls[k].ref != "")
    && (forall j, k :: 0 <= j < k < |p.pulls| ==> p.pulls[j].spec != p.pulls[k].spec)
  }

  // ---------------------------------------------------- the gate's side

  /** The tombstone the store holds for a spec when item `k` is declared: the
      last one written. */
  function TombFor(pulls: seq<Pull>, spec: int, k: nat): string {
    if pulls == [] then ""
    else
      var last := pulls[|pulls| - 1];
      if last.spec == spec && last.at <= k then last.ref else TombFor(pulls[..|pulls| - 1], spec, k)
  }

  const NO_SPEC := PlanSpec("", [], [])

  /** The attested spec an item refers to, if the resolver yields it. */
  function SpecFor(p: Plan, k: nat): PlanSpec
    requires k < |p.items|
  {
    var it := p.items[k];
    if 0 <= it.spec < |p.specs| && TombFor(p.pulls, it.spec, k) == "" then p.specs[it.spec] else NO_SPEC
  }

  /** The intent the server hands the gate for item `k`. */
  function IntentFor(p: Plan, k: nat): Intent
    requires k < |p.items|
  {
    var it, ref, s := p.items[k], TombFor(p.pulls, p.items[k].spec, k), SpecFor(p, k);
    Intent(it.seed, Spec("", s.criteria, "", s.posture, s.humanJudgment), it.key, "", it.specHash,
           if ref != "" then Resolution(false, "", "", ref)
           else Resolution(0 <= it.spec < |p.specs|, "", "", ""))
  }

  /** The scorer service: the criterion's fact against its threshold. */
  function Evaluate(p: Plan, c: Criterion): string {
    if c.name !in p.facts then "UNEVALUABLE"
    else if p.facts[c.name] >= c.threshold then "PASS"
    else "FAIL"
  }

  /** What the fault proxy returns: an outage answers no question, drift fails
      every one asked at the edge, and the rest reaches the service. */
  function Proxied(p: Plan, it: Item, c: Criterion, atDispatch: bool): Option<string> {
    if it.outage then None else if it.drift && atDispatch then Some("FAIL") else Some(Evaluate(p, c))
  }

  /** The gate's client: whatever is not one of two words is unevaluable. */
  function Mapped(reply: Option<string>): int {
    if reply == Some("PASS") then 0 else if reply == Some("FAIL") then 1 else 2
  }

  /** The answers of item `k`'s call: revocation does not change during it, and
      the key is free unless an earlier item achieved it. */
  function WorldFor(p: Plan, k: nat, reserved: set<string>): World
    requires k < |p.items|
  {
    var it, cs := p.items[k], SpecFor(p, k).criteria;
    World((j: nat) => if j < |cs| then Mapped(Proxied(p, it, cs[j], false)) else PASS,
          (j: nat) => if j < |cs| then Mapped(Proxied(p, it, cs[j], true)) else PASS,
          None, None, it.key != "" && it.key !in reserved)
  }

  function GateSays(h: Digest, p: Plan, k: nat, reserved: set<string>): (pc: Pc)
    requires k < |p.items|
    ensures pc.Done?
  {
    Outcome(h, Job(IntentFor(p, k), ""), WorldFor(p, k, reserved)).pc
  }

  /** The keys the gate has reserved before item `k`. */
  function ReservedBefore(h: Digest, p: Plan, k: nat): set<string>
    requires k <= |p.items|
  {
    if k == 0 then {}
    else
      var before := ReservedBefore(h, p, k - 1);
      before + (if GateSays(h, p, k - 1, before).terminal == ACHIEVED then {p.items[k - 1].key} else {})
  }

  // ---------------------------------------------------- the oracle's side

  datatype Prediction = Prediction(terminal: string, reason: string, class_: LoopClasses.Bucket)

  /** The oracle's own score: drift fails the volatile criteria only. */
  function Score(p: Plan, it: Item, c: Criterion, atDispatch: bool): string {
    if it.outage then "UNEVALUABLE"
    else if it.drift && atDispatch && c.volatility == "volatile" then "FAIL"
    else if c.name !in p.facts then "UNEVALUABLE"
    else if p.facts[c.name] >= c.threshold then "PASS"
    else "FAIL"
  }

  /** It is what the gate is answered, on every question the gate asks. */
  lemma ScoresAgree(p: Plan, it: Item, c: Criterion, atDispatch: bool)
    requires atDispatch ==> c.volatility == "volatile"
    ensures var s, answer := Score(p, it, c, atDispatch), Mapped(Proxied(p, it, c, atDispatch));
      && (s == "PASS" <==> answer == 0) && (s == "FAIL" <==> answer == 1) && (s == "UNEVALUABLE" <==> answer == 2)
      && answer in {0, 1, 2}
  {}

  /** The first matching revocation in plan order. */
  method FindPull(p: Plan, spec: int, k: nat) returns (ref: Option<string>)
    requires ValidPlan(p)
    ensures ref == if TombFor(p.pulls, spec, k) == "" then None else Some(TombFor(p.pulls, spec, k))
  {
    for j := 0 to |p.pulls|
      invariant TombFor(p.pulls[..j], spec, k) == ""
    {
      var r := p.pulls[j];
      assert p.pulls[..j + 1][..j] == p.pulls[..j];
      if r.spec == spec && r.at <= k {
        OnlyPull(p, spec, k, j, |p.pulls|);
        assert p.pulls[..|p.pulls|] == p.pulls;
        return Some(r.ref);
      }
    }
    assert p.pulls[..|p.pulls|] == p.pulls;
    return None;
  }

  lemma {:induction false} OnlyPull(p: Plan, spec: int, k: nat, j: nat, n: nat)
    requires ValidPlan(p) && j < n <= |p.pulls| && p.pulls[j].spec == spec && p.pulls[j].at <= k
    ensures TombFor(p.pulls[..n], spec, k) == p.pulls[j].ref
    decreases n
  {
    assert p.pulls[..n][..n - 1] == p.pulls[..n - 1];
    if j < n - 1 {
      OnlyPull(p, spec, k, j, n - 1);
    }
  }

  /** No row before `r` applies. */
  ghost predicate Upto(i: Intent, w: World, r: nat) { forall j: nat :: j < r ==> !Applies(i, w, j) }

  lemma Pass(i: Intent, w: World, r: nat)
    requires Upto(i, w, r) && !Applies(i, w, r)
    ensures Upto(i, w, r + 1)
  {
    hide Applies;
  }

  /** The row that decides, and what it ends the run with. */
  lemma Decided(h: Digest, i: Intent, w: World, r: nat, terminal: Kind, reason: string)
    requires r < ROWS && Upto(i, w, r) && Applies(i, w, r) && End(RowAt(h, i, w, r)) == Done(terminal, reason)
    ensures Done(terminal, reason) == End(Verdict(h, i, w))
  {
    hide Applies, RowAt;
    assert Decision(i, w) == r;
  }

  /** The whole prediction of one item from the contract's refusal order. */
  method Predict(h: Digest, p: Plan, k: nat, reserved: set<string>) returns (terminal: Kind, reason: string)
    requires ValidPlan(p) && k < |p.items|
    ensures Done(terminal, reason) == End(Verdict(h, IntentFor(p, k), WorldFor(p, k, reserved)))
  {
    hide IntentFor, WorldFor, Applies, Verdict, RowAt, ValidPlan, Upto, End, TombFor;
    var it := p.items[k];
    ghost var i, w := IntentFor(p, k), WorldFor(p, k, reserved);
    Inputs(p, k, reserved);
    NothingYet(i, w);
    FirstRows(i, w);
    var rev := FindPull(p, it.spec, k);
    if it.key == "" {
      KeyRows(h, i, w);
      Decided(h, i, w, 0, FAILED, "unevaluable:absent-key");
      return FAILED, "unevaluable:absent-key";
    }
    Pass(i, w, 0);
    if rev.Some? {
      KeyRows(h, i, w);
      Decided(h, i, w, 1, FAILED, "revoked:" + rev.value);
      return FAILED, "revoked:" + rev.value;
    }
    Pass(i, w, 1);
    if it.spec < 0 {
      KeyRows(h, i, w);
      Decided(h, i, w, 2, FAILED, "unevaluable:unattested-spec");
      return FAILED, "unevaluable:unattested-spec";
    }
    Pass(i, w, 2);
    Pass(i, w, 3);
    terminal, reason := PredictAttested(h, p, k, reserved, it, p.specs[it.spec]);
  }

  lemma NothingYet(i: Intent, w: World)
    ensures Upto(i, w, 0)
  {}

  lemma FirstRows(i: Intent, w: World)
    ensures Applies(i, w, 0) <==> i.key == ""
    ensures Applies(i, w, 1) <==> i.resolution.revokedRef != ""
    ensures Applies(i, w, 2) <==> !i.resolution.attested
    ensures Applies(i, w, 3) <==> w.first.Some?
  {
    hide Applies;
    Conditions(i, w);
  }

  /** The spec-shape refusals. */
  method PredictAttested(h: Digest, p: Plan, k: nat, reserved: set<string>, it: Item, spec: PlanSpec)
    returns (terminal: Kind, reason: string)
    requires ValidPlan(p) && k < |p.items| && it == p.items[k] && it.key != ""
    requires var i, w := IntentFor(p, k), WorldFor(p, k, reserved); Upto(i, w, 4) && FromSpec(i, spec)
    ensures Done(terminal, reason) == End(Verdict(h, IntentFor(p, k), WorldFor(p, k, reserved)))
  {
    hide IntentFor, WorldFor, Applies, Verdict, RowAt, FirstMisspelled, ValidPlan, CriterionName, Upto, Refusal,
         End;
    ghost var i, w := IntentFor(p, k), WorldFor(p, k, reserved);
    ShapeConditions(i, w);
    ShapeRows(h, i, w);
    if spec.posture != "enforce" && spec.posture != "shadow" {
      Decided(h, i, w, 4, FAILED, "unevaluable:invalid-posture");
      return FAILED, "unevaluable:invalid-posture";
    }
    Pass(i, w, 4);
    if spec.humanJudgment != [] {
      Decided(h, i, w, 5, FAILED, "unevaluable:human-judgment:" + spec.humanJudgment[0]);
      return FAILED, "unevaluable:human-judgment:" + spec.humanJudgment[0];
    }
    Pass(i, w, 5);
    if spec.criteria == [] {
      Decided(h, i, w, 6, FAILED, "unevaluable:empty-criteria");
      return FAILED, "unevaluable:empty-criteria";
    }
    Pass(i, w, 6);
    var bad := FirstBad(i, spec.criteria);
    if bad < |spec.criteria| {
      NameAt(i, bad);
      Decided(h, i, w, 7, FAILED, "unevaluable:invalid-volatility:" + spec.criteria[bad].name);
      return FAILED, "unevaluable:invalid-volatility:" + spec.criteria[bad].name;
    }
    Pass(i, w, 7);
    terminal, reason := PredictScored(h, p, k, reserved, it, spec);
  }

  lemma ShapeConditions(i: Intent, w: World)
    ensures Applies(i, w, 4) <==> i.spec.posture != "enforce" && i.spec.posture != "shadow"
    ensures Applies(i, w, 5) <==> i.spec.humanJudgment != []
    ensures Applies(i, w, 6) <==> i.spec.criteria == []
    ensures Applies(i, w, 7) <==> FirstMisspelled(i) < |i.spec.criteria|
  {
    hide Applies, FirstMisspelled;
    Conditions(i, w);
  }

  predicate FromSpec(i: Intent, s: PlanSpec) {
    i.spec.posture == s.posture && i.spec.humanJudgment == s.humanJudgment && i.spec.criteria == s.criteria
  }

  /** What the table reads from the intent and the answers of an item. */
  lemma Inputs(p: Plan, k: nat, reserved: set<string>)
    requires ValidPlan(p) && k < |p.items|
    ensures var i, w, it := IntentFor(p, k), WorldFor(p, k, reserved), p.items[k];
      && i.key == it.key && i.resolution.revokedRef == TombFor(p.pulls, it.spec, k)
      && w.first == None && w.edge == None && (it.key != "" ==> w.granted == (it.key !in reserved))
      && (i.resolution.revokedRef == "" ==> (i.resolution.attested <==> it.spec >= 0))
      && it.spec < |p.specs| && (i.resolution.revokedRef == "" && it.spec >= 0 ==> FromSpec(i, p.specs[it.spec]))
    ensures forall j: nat :: j < |IntentFor(p, k).spec.criteria| ==>
      var w, c, it := WorldFor(p, k, reserved), IntentFor(p, k).spec.criteria[j], p.items[k];
      && w.declaration(j) == Mapped(Proxied(p, it, c, false))
      && w.dispatch(j) == Mapped(Proxied(p, it, c, true))
  {
    hide TombFor;
  }

  lemma KeyRows(h: Digest, i: Intent, w: World)
    ensures End(RowAt(h, i, w, 0)) == Done(FAILED, "unevaluable:absent-key")
    ensures End(RowAt(h, i, w, 1)) == Done(FAILED, "revoked:" + i.resolution.revokedRef)
    ensures End(RowAt(h, i, w, 2)) == Done(FAILED, "unevaluable:unattested-spec")
  {
    hide Say;
    Phrases();
  }

  lemma ShapeRows(h: Digest, i: Intent, w: World)
    ensures End(RowAt(h, i, w, 4)) == Done(FAILED, "unevaluable:invalid-posture")
    ensures i.spec.humanJudgment != [] ==>
      End(RowAt(h, i, w, 5)) == Done(FAILED, "unevaluable:human-judgment:" + i.spec.humanJudgment[0])
    ensures End(RowAt(h, i, w, 6)) == Done(FAILED, "unevaluable:empty-criteria")
    ensures End(RowAt(h, i, w, 7)) ==
      Done(FAILED, "unevaluable:invalid-volatility:" + CriterionName(i, FirstMisspelled(i)))
  {
    hide Say, FirstMisspelled, CriterionName;
    Phrases();
  }

  lemma ScoreEnds(h: Digest, i: Intent, w: World)
    ensures End(RowAt(h, i, w, 8)) == Done(FAILED, "unevaluable:" + CriterionName(i, FirstUnscored(i, w)))
    ensures End(RowAt(h, i, w, 9)) == Done(FAILED, Join(FailedNames(i, w, 0), ","))
    ensures End(RowAt(h, i, w, 10)) ==
      Done(FAILED_AT_DISPATCH, "volatile-recheck:" + CriterionName(i, FirstDrifted(i, w)))
  {
    hide Say, FirstUnscored, FirstDrifted, FailedNames, Join, CriterionName;
    Phrases();
  }

  lemma EdgeEnds(h: Digest, i: Intent, w: World)
    ensures End(RowAt(h, i, w, 12)) == Done(SHADOW_RECORDED, "")
    ensures End(RowAt(h, i, w, 13)) == Done(FAILED_AT_DISPATCH, "idempotency-collision")
    ensures End(RowAt(h, i, w, 14)) == Done(ACHIEVED, "")
  {
    hide Say, Id;
    Phrases();
  }

  method FirstBad(ghost i: Intent, cs: seq<Criterion>) returns (bad: nat)
    requires cs == i.spec.criteria
    ensures bad == FirstMisspelled(i)
  {
    MisspelledAt(i);
    bad := 0;
    while bad < |cs| && (cs[bad].volatility == "stable" || cs[bad].volatility == "volatile")
      invariant 0 <= bad <= |cs| && forall j :: 0 <= j < bad ==> KnownVolatility(cs[j])
    {
      bad := bad + 1;
    }
    hide FirstMisspelled;
    assert bad < |cs| ==> i.spec.criteria[bad] == cs[bad];
  }

  lemma UnscoredIs(i: Intent, w: World, u: nat)
    requires u <= Size(i) && forall j: nat :: j < u ==> w.declaration(j) == PASS || w.declaration(j) == FAIL
    requires u < Size(i) ==> w.declaration(u) != PASS && w.declaration(u) != FAIL
    ensures FirstUnscored(i, w) == u
  {
    UnscoredAt(i, w);
    hide FirstUnscored;
  }

  lemma DriftedIs(i: Intent, w: World, d: nat)
    requires d <= Size(i) && forall j: nat :: j < d && IsVolatile(i.spec.criteria[j]) ==> w.dispatch(j) == PASS
    requires d < Size(i) ==> IsVolatile(i.spec.criteria[d]) && w.dispatch(d) != PASS
    ensures FirstDrifted(i, w) == d
  {
    DriftedAt(i, w);
    hide FirstDrifted;
  }

  method PredictScored(h: Digest, p: Plan, k: nat, reserved: set<string>, it: Item, spec: PlanSpec)
    returns (terminal: Kind, reason: string)
    requires ValidPlan(p) && k < |p.items| && it == p.items[k] && it.key != ""
    requires var i, w := IntentFor(p, k), WorldFor(p, k, reserved); Upto(i, w, SCORING_ROW) && FromSpec(i, spec)
    ensures Done(terminal, reason) == End(Verdict(h, IntentFor(p, k), WorldFor(p, k, reserved)))
  {
    hide IntentFor, WorldFor, Applies, Score, Mapped, Proxied, Verdict, RowAt, FirstUnscored, FailedNames,
         FirstDrifted, Join, Failures, SoFar, ValidPlan, CriterionName, Upto, End;
    ghost var i, w := IntentFor(p, k), WorldFor(p, k, reserved);
    ScoreConditions(i, w);
    Inputs(p, k, reserved);
    ScoreEnds(h, i, w);
    var failed: seq<string> := [];
    StartSoFar(i, w);
    for j := 0 to |spec.criteria|
      invariant SoFar(i, w, j, failed)
      invariant forall m: nat :: m < j ==> w.declaration(m) == PASS || w.declaration(m) == FAIL
    {
      var c := spec.criteria[j];
      var s := Score(p, it, c, false);
      ScoresAgree(p, it, c, false);
      if s == "UNEVALUABLE" {
        NameAt(i, j);
        UnscoredIs(i, w, j);
        Decided(h, i, w, 8, FAILED, "unevaluable:" + c.name);
        return FAILED, "unevaluable:" + c.name;
      }
      NameAt(i, j);
      FailedStep(i, w, j, failed);
      FailuresAre(i, w, j, failed);
      if s == "FAIL" {
        failed := failed + [c.name];
      }
    }
    UnscoredIs(i, w, |spec.criteria|);
    EndSoFar(i, w, failed);
    Pass(i, w, 8);
    if failed != [] {
      Decided(h, i, w, 9, FAILED, Join(failed, ","));
      return FAILED, Join(failed, ",");
    }
    Pass(i, w, 9);
    terminal, reason := PredictEdge(h, p, k, reserved, it, spec);
  }

  lemma ScoreConditions(i: Intent, w: World)
    ensures Applies(i, w, 8) <==> FirstUnscored(i, w) < Size(i)
    ensures Applies(i, w, 9) <==> FailedNames(i, w, 0) != []
    ensures Applies(i, w, 10) <==> FirstDrifted(i, w) < Size(i)
    ensures Applies(i, w, 11) <==> w.edge.Some?
    ensures Applies(i, w, 12) <==> i.spec.posture == "shadow"
    ensures Applies(i, w, 13) <==> !w.granted
    ensures Applies(i, w, 14)
  {
    hide FirstUnscored, FirstDrifted, FailedNames, FirstMisspelled;
  }

  method PredictEdge(h: Digest, p: Plan, k: nat, reserved: set<string>, it: Item, spec: PlanSpec)
    returns (terminal: Kind, reason: string)
    requires ValidPlan(p) && k < |p.items| && it == p.items[k] && it.key != ""
    requires var i, w := IntentFor(p, k), WorldFor(p, k, reserved); Upto(i, w, 10) && FromSpec(i, spec)
    ensures Done(terminal, reason) == End(Verdict(h, IntentFor(p, k), WorldFor(p, k, reserved)))
  {
    hide IntentFor, WorldFor, Applies, Score, Mapped, Proxied, Verdict, RowAt, FirstUnscored, FailedNames,
         FirstDrifted, Join, ValidPlan, CriterionName, Upto, End;
    ghost var i, w := IntentFor(p, k), WorldFor(p, k, reserved);
    ScoreConditions(i, w);
    Inputs(p, k, reserved);
    for j := 0 to |spec.criteria|
      invariant forall m: nat :: m < j && IsVolatile(i.spec.criteria[m]) ==> w.dispatch(m) == PASS
    {
      var c := spec.criteria[j];
      if c.volatility != "volatile" {
        continue;
      }
      var s := Score(p, it, c, true);
      ScoresAgree(p, it, c, true);
      if s != "PASS" {
        NameAt(i, j);
        DriftedIs(i, w, j);
        ScoreEnds(h, i, w);
        Decided(h, i, w, 10, FAILED_AT_DISPATCH, "volatile-recheck:" + c.name);
        return FAILED_AT_DISPATCH, "volatile-recheck:" + c.name;
      }
    }
    DriftedIs(i, w, |spec.criteria|);
    EdgeEnds(h, i, w);
    Pass(i, w, 10);
    Pass(i, w, 11);
    if spec.posture == "shadow" {
      Decided(h, i, w, 12, SHADOW_RECORDED, "");
      return SHADOW_RECORDED, "";
    }
    Pass(i, w, 12);
    if it.key in reserved {
      Decided(h, i, w, 13, FAILED_AT_DISPATCH, "idempotency-collision");
      return FAILED_AT_DISPATCH, "idempotency-collision";
    }
    Pass(i, w, 13);
    Decided(h, i, w, 14, ACHIEVED, "");
    return ACHIEVED, "";
  }

  lemma StartSoFar(i: Intent, w: World)
    ensures SoFar(i, w, 0, [])
  {
    hide FailedNames;
    assert [] + FailedNames(i, w, 0) == FailedNames(i, w, 0);
  }

  lemma EndSoFar(i: Intent, w: World, failed: seq<string>)
    requires SoFar(i, w, Size(i), failed)
    ensures failed == FailedNames(i, w, 0)
  {
    NoneLeft(i, w, failed);
  }

  lemma FailuresAre(i: Intent, w: World, j: nat, failed: seq<string>)
    ensures Failures(i, w, j, failed) == if w.declaration(j) == FAIL then failed + [CriterionName(i, j)] else failed
  {}

  lemma NameAt(i: Intent, j: nat)
    requires j < Size(i)
    ensures CriterionName(i, j) == i.spec.criteria[j].name
  {}

  // ---------------------------------------------------- the stream

  /** The gate's run of an item ends as the table says. */
  lemma GateFollows(h: Digest, p: Plan, k: nat, reserved: set<string>)
    requires k < |p.items|
    ensures GateSays(h, p, k, reserved) == End(Verdict(h, IntentFor(p, k), WorldFor(p, k, reserved)))
  {
    hide Outcome, Word, RowAt, Decision, IntentFor, WorldFor;
    FollowsTable(h, Job(IntentFor(p, k), ""), WorldFor(p, k, reserved));
  }

  /** Past the failures, every reason is one the loop reads as the declarant
      does. */
  lemma PastFailures(h: Digest, i: Intent, w: World, r: nat)
    requires r < ROWS
    ensures var e := End(RowAt(h, i, w, r));
      || e.terminal == FAILED || e.terminal == ACHIEVED || e.terminal == SHADOW_RECORDED
      || (e.terminal == FAILED_AT_DISPATCH && (e.reason == "idempotency-collision"
           || HasPrefix(e.reason, "volatile-recheck:") || HasPrefix(e.reason, "revoked:")))
  {
    hide FirstUnscored, FirstDrifted, FirstMisspelled, FailedNames, Join, Id;
  }

  /** The loop's class of a gate outcome stands for the declarant's, unless a
      failure's reason is not aligned. */
  lemma ClassesAgree(h: Digest, job: Job, w: World)
    ensures var pc := Outcome(h, job, w).pc;
      LoopClasses.Agrees(Name(pc.terminal), pc.reason) <==> (pc.terminal == FAILED ==> LoopClasses.Aligned(pc.reason))
  {
    hide Outcome, Word, RowAt, Decision, LoopClasses.Agrees, LoopClasses.Aligned;
    FollowsTable(h, job, w);
    PastFailures(h, job.intent, w, Decision(job.intent, w));
    var pc := Outcome(h, job, w).pc;
    LoopClasses.FailedAgrees(pc.reason);
    if pc.terminal != FAILED {
      LoopClasses.OthersAgree(Name(pc.terminal), pc.reason);
    }
  }

  /** The prediction is what the gate does with item `k` of the stream; its
      class stands for the declarant's of that outcome exactly when a failure's
      reason is aligned. */
  ghost predicate Foretells(h: Digest, p: Plan, k: nat, one: Prediction)
    requires k < |p.items|
  {
    var pc := GateSays(h, p, k, ReservedBefore(h, p, k));
    && one.terminal == Name(pc.terminal) && one.reason == pc.reason
    && one.class_ == LoopClasses.BucketOf(one.terminal, one.reason)
    && (LoopClasses.ClassOf(one.class_) == D.Classify(Name(pc.terminal), pc.reason).class_ <==>
        (pc.terminal == FAILED ==> LoopClasses.Aligned(pc.reason)))
  }

  /** Agreement over a whole stream: the oracle, which knows nothing of runs or
      records, predicts every terminal, reason and class the gate reaches, and
      reserves exactly the keys the gate reserves. */
  method Predictions(h: Digest, p: Plan) returns (out: seq<Prediction>, reserved: set<string>)
    requires ValidPlan(p)
    ensures |out| == |p.items| && reserved == ReservedBefore(h, p, |p.items|)
    ensures forall k :: 0 <= k < |p.items| ==> Foretells(h, p, k, out[k])
  {
    hide GateSays, ValidPlan, Verdict, IntentFor, WorldFor, D.Classify, Foretells, ReservedBefore, LoopClasses.BucketOf;
    NoneReserved(h, p);
    out, reserved := [], {};
    for k := 0 to |p.items|
      invariant |out| == k && reserved == ReservedBefore(h, p, k)
      invariant forall j :: 0 <= j < k ==> Foretells(h, p, j, out[j])
    {
      var terminal, reason := Predict(h, p, k, reserved);
      GateFollows(h, p, k, reserved);
      var class_ := LoopClasses.Classify(Name(terminal), reason);
      var one := Prediction(Name(terminal), reason, class_);
      ItForetells(h, p, k, terminal, reason, one);
      out := out + [one];
      if terminal == ACHIEVED {
        reserved := reserved + {p.items[k].key};
      }
    }
  }

  lemma NoneReserved(h: Digest, p: Plan)
    ensures ReservedBefore(h, p, 0) == {}
  {}

  lemma ItForetells(h: Digest, p: Plan, k: nat, terminal: Kind, reason: string, one: Prediction)
    requires k < |p.items| && GateSays(h, p, k, ReservedBefore(h, p, k)) == Done(terminal, reason)
    requires one == Prediction(Name(terminal), reason, LoopClasses.BucketOf(Name(terminal), reason))
    ensures Foretells(h, p, k, one)
    ensures ReservedBefore(h, p, k + 1) ==
            ReservedBefore(h, p, k) + (if terminal == ACHIEVED then {p.items[k].key} else {})
  {
    hide D.Classify, Outcome, LoopClasses.Aligned, LoopClasses.BucketOf, LoopClasses.ClassOf, IntentFor, WorldFor;
    ClassesAgree(h, Job(IntentFor(p, k), ""), WorldFor(p, k, ReservedBefore(h, p, k)));
  }
}
