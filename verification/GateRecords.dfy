// What one call of Authorize writes, literally: the type and the text of every
// record it leaves in the feed, in order, and the verdict it returns, for every
// intent and every answer of its environment.

module GateRecords {
  import opened Text
  import opened Hashing
  import opened Intents
  import opened Lifecycle
  import opened FeedRecord
  import opened Gate
  import opened GateInvariant
  import opened GateSpec
  import opened GateTheorems
  import Audit

  /** What a record says: its type and its detail. */
  datatype Line = Line(typ: string, detail: string)

  /** The lines of a call's records, its terminal state and its reason. */
  datatype Story = Story(lines: seq<Line>, terminal: string, reason: string)

  function Lines(recs: seq<Record>): seq<Line> {
    seq(|recs|, k requires 0 <= k < |recs| => Line(recs[k].typ, recs[k].detail))
  }

  // ---------------------------------------------------- the account

  /** The scorer's domain is 0 (pass), 1 (fail) and 2; other answers count as 2. */
  function ScoredLine(i: Intent, w: World, k: nat): Line
    requires k < |i.spec.criteria|
  {
    var name := i.spec.criteria[k].name;
    if w.declaration(k) == 0 then Line("SCORED", name + ":PASS")
    else if w.declaration(k) == 1 then Line("SCORED", name + ":FAIL")
    else Line("SCORED", name + ":UNEVALUABLE")
  }

  function RecheckLine(i: Intent, w: World, k: nat): Line
    requires k < |i.spec.criteria|
  {
    var name := i.spec.criteria[k].name;
    if w.dispatch(k) == 0 then Line("RECHECK", name + ":PASS")
    else if w.dispatch(k) == 1 then Line("RECHECK", name + ":FAIL")
    else Line("RECHECK", name + ":UNEVALUABLE")
  }

  /** One line for each of the first `n` criteria, in slice order. */
  function Scores(i: Intent, w: World, n: nat): seq<Line>
    requires n <= |i.spec.criteria|
  {
    if n == 0 then [] else Scores(i, w, n - 1) + [ScoredLine(i, w, n - 1)]
  }

  /** One line for each volatile criterion among the first `n`. */
  function Rechecks(i: Intent, w: World, n: nat): seq<Line>
    requires n <= |i.spec.criteria|
  {
    if n == 0 then []
    else Rechecks(i, w, n - 1) +
         (if i.spec.criteria[n - 1].volatility == "volatile" then [RecheckLine(i, w, n - 1)] else [])
  }

  /** The names of the criteria among the first `n` that failed. */
  function Failing(i: Intent, w: World, n: nat): seq<string>
    requires n <= |i.spec.criteria|
  {
    if n == 0 then []
    else Failing(i, w, n - 1) + (if w.declaration(n - 1) == 1 then [i.spec.criteria[n - 1].name] else [])
  }

  /** Criterion `k` is the first whose volatility is neither word. */
  ghost predicate Misspells(i: Intent, k: int) {
    && 0 <= k < |i.spec.criteria| && i.spec.criteria[k].volatility !in {"stable", "volatile"}
    && forall j :: 0 <= j < k ==> i.spec.criteria[j].volatility in {"stable", "volatile"}
  }

  /** Criterion `k` is the first the scorer could not score. */
  ghost predicate Stumps(i: Intent, w: World, k: int) {
    && 0 <= k < |i.spec.criteria| && w.declaration(k) !in {0, 1}
    && forall j: nat :: j < k ==> w.declaration(j) in {0, 1}
  }

  /** Criterion `k` is the first volatile one that does not pass again. */
  ghost predicate Drifts(i: Intent, w: World, k: int) {
    && 0 <= k < |i.spec.criteria| && i.spec.criteria[k].volatility == "volatile" && w.dispatch(k) != 0
    && forall j: nat :: j < k && i.spec.criteria[j].volatility == "volatile" ==> w.dispatch(j) == 0
  }

  /** A refusal before any scoring. */
  function Early(id: string, typ: string, detail: string, reason: string): Story {
    Story([Line("DECLARED", id), Line(typ, detail)], "FAILED", reason)
  }

  const STATES := [Line("RESOLVING", ""), Line("ACTIVE", ""), Line("VERIFYING", "")]

  /** The lines of a call that scores, up to the last of `n` scores. */
  function Scored(i: Intent, w: World, id: string, n: nat): seq<Line>
    requires n <= |i.spec.criteria|
  {
    [Line("DECLARED", id)] + STATES + Scores(i, w, n)
  }

  /** The same, with the rechecks among the first `n` criteria. */
  function Rescored(i: Intent, w: World, id: string, n: nat): seq<Line>
    requires n <= |i.spec.criteria|
  {
    Scored(i, w, id, |i.spec.criteria|) + Rechecks(i, w, n)
  }

  /** What a call tells that refuses at its declaration, if it does. */
  ghost predicate RefusedEarly(i: Intent, w: World, id: string, s: Story) {
    if i.key == "" then s == Early(id, "UNEVALUABLE", "absent-key", "unevaluable:absent-key")
    else if i.resolution.revokedRef != "" then
      s == Early(id, "REVOKED", i.resolution.revokedRef, "revoked:" + i.resolution.revokedRef)
    else if !i.resolution.attested then
      s == Early(id, "UNEVALUABLE", "unattested-spec:" + i.specHash, "unevaluable:unattested-spec")
    else if w.first.Some? then s == Early(id, "REVOKED", w.first.value, "revoked:" + w.first.value)
    else if i.spec.posture !in {"enforce", "shadow"} then
      s == Early(id, "UNEVALUABLE", "invalid-posture:" + i.spec.posture, "unevaluable:invalid-posture")
    else if i.spec.humanJudgment != [] then
      var name := i.spec.humanJudgment[0];
      s == Early(id, "UNEVALUABLE", "human-judgment:" + name, "unevaluable:human-judgment:" + name)
    else if i.spec.criteria == [] then
      s == Early(id, "UNEVALUABLE", "empty-criteria:" + i.specHash, "unevaluable:empty-criteria")
    else
      exists k :: Misspells(i, k) &&
        var c := i.spec.criteria[k];
        s == Early(id, "UNEVALUABLE", "invalid-volatility:" + c.name + ":" + c.volatility,
                   "unevaluable:invalid-volatility:" + c.name)
  }

  /** The call is past every check that needs no scorer. */
  ghost predicate Scorable(i: Intent, w: World) {
    && i.key != "" && i.resolution.revokedRef == "" && i.resolution.attested && w.first.None?
    && i.spec.posture in {"enforce", "shadow"} && i.spec.humanJudgment == [] && i.spec.criteria != []
    && forall k :: 0 <= k < |i.spec.criteria| ==> i.spec.criteria[k].volatility in {"stable", "volatile"}
  }

  /** What a call tells that some criterion stops, if one does. */
  ghost predicate StoppedScoring(i: Intent, w: World, id: string, s: Story) {
    var n := |i.spec.criteria|;
    if exists k: nat :: k < n && w.declaration(k) !in {0, 1} then
      exists k :: Stumps(i, w, k) &&
        var name := i.spec.criteria[k].name;
        s == Story(Scored(i, w, id, k + 1) + [Line("UNEVALUABLE", name), Line("FAILED", "unevaluable:" + name)],
                   "FAILED", "unevaluable:" + name)
    else
      && Failing(i, w, n) != []
      && var names := Join(Failing(i, w, n), ",");
      s == Story(Scored(i, w, id, n) + [Line("FAILED", names)], "FAILED", names)
  }

  /** Every criterion passed. */
  ghost predicate Passed(i: Intent, w: World) {
    forall k: nat :: k < |i.spec.criteria| ==> w.declaration(k) == 0
  }

  ghost predicate DriftedOff(i: Intent, w: World, id: string, s: Story) {
    exists k :: Drifts(i, w, k) &&
      var name := i.spec.criteria[k].name;
      s == Story(Rescored(i, w, id, k + 1) + (if w.dispatch(k) == 2 then [Line("UNEVALUABLE", name)] else [])
                 + [Line("FAILED_AT_DISPATCH", "volatile-recheck:" + name)],
                 "FAILED_AT_DISPATCH", "volatile-recheck:" + name)
  }

  /** Every volatile criterion passed again. */
  ghost predicate PassedAgain(i: Intent, w: World) {
    forall k: nat :: k < |i.spec.criteria| && i.spec.criteria[k].volatility == "volatile" ==> w.dispatch(k) == 0
  }

  /** What a call tells at the dispatch edge. */
  function AtEdge(i: Intent, w: World, id: string): Story {
    var before := Rescored(i, w, id, |i.spec.criteria|);
    if w.edge.Some? then
      Story(before + [Line("REVOKED", w.edge.value), Line("FAILED_AT_DISPATCH", "revoked:" + w.edge.value)],
            "FAILED_AT_DISPATCH", "revoked:" + w.edge.value)
    else if i.spec.posture == "shadow" then
      Story(before + [Line("SHADOW_RECORDED", id)], "SHADOW_RECORDED", "")
    else if !w.granted then
      Story(before + [Line("FAILED_AT_DISPATCH", "idempotency-collision")],
            "FAILED_AT_DISPATCH", "idempotency-collision")
    else Story(before + [Line("IDEMPOTENCY_RESERVED", i.key), Line("ACHIEVED", id)], "ACHIEVED", "")
  }

  ghost predicate Account(i: Intent, w: World, id: string, s: Story) {
    if !Scorable(i, w) then RefusedEarly(i, w, id, s)
    else if !Passed(i, w) then StoppedScoring(i, w, id, s)
    else if !PassedAgain(i, w) then DriftedOff(i, w, id, s)
    else s == AtEdge(i, w, id)
  }

  // ---------------------------------------------------- the lines of a word

  function Said(h: Digest, i: Intent, r: Request): seq<Line> {
    if r.EmitTraced? then [Line(Name(r.kind), Id(h, i))]
    else if Emits(r) then [Line(Name(r.kind), r.detail)]
    else []
  }

  function LinesOf(h: Digest, i: Intent, word: seq<Request>): seq<Line> {
    if word == [] then [] else LinesOf(h, i, word[..|word| - 1]) + Said(h, i, word[|word| - 1])
  }

  lemma {:induction false} MirrorLines(h: Digest, job: Job, word: seq<Request>)
    ensures Lines(MirrorsOf(h, job, word)) == LinesOf(h, job.intent, word)
    decreases |word|
  {
    hide Name, Id, EventsOf;
    if word != [] {
      MirrorLines(h, job, word[..|word| - 1]);
    }
  }

  lemma {:induction false} LinesAppend(h: Digest, i: Intent, a: seq<Request>, b: seq<Request>)
    ensures LinesOf(h, i, a + b) == LinesOf(h, i, a) + LinesOf(h, i, b)
    decreases |b|
  {
    hide Said;
    if b == [] {
      assert a + b == a;
    } else {
      var n := |b| - 1;
      LinesAppend(h, i, a, b[..n]);
      assert (a + b)[..|a + b| - 1] == a + b[..n];
    }
  }

  lemma NoLines(h: Digest, i: Intent)
    ensures LinesOf(h, i, []) == []
  {}

  lemma OneSaid(h: Digest, i: Intent, r: Request)
    ensures LinesOf(h, i, [r]) == Said(h, i, r)
  {
    hide Said;
    NoLines(h, i);
    assert [r][..0] == [];
  }

  lemma TwoSaid(h: Digest, i: Intent, a: Request, b: Request)
    ensures LinesOf(h, i, [a, b]) == Said(h, i, a) + Said(h, i, b)
  {
    hide LinesOf, Said;
    OneSaid(h, i, a);
    OneSaid(h, i, b);
    LinesAppend(h, i, [a], [b]);
    assert [a] + [b] == [a, b];
  }

  // ---------------------------------------------------- scores and rechecks

  lemma Marks(name: string)
    ensures name + ":" + ScoreText(0) == name + ":PASS" && name + ":" + ScoreText(1) == name + ":FAIL"
    ensures forall a: int :: a !in {0, 1} ==> name + ":" + ScoreText(a) == name + ":UNEVALUABLE"
  {
    assert name + ":" + "PASS" == name + ":PASS" && name + ":" + "FAIL" == name + ":FAIL";
    assert name + ":" + "UNEVALUABLE" == name + ":UNEVALUABLE";
  }

  lemma ScoredSaid(h: Digest, i: Intent, w: World, k: nat)
    requires k < Size(i)
    ensures LinesOf(h, i, [AskDeclaration(k), Emit(SCORED, CriterionName(i, k) + ":" + ScoreText(w.declaration(k)))])
         == [ScoredLine(i, w, k)]
  {
    hide LinesOf, Id;
    var text := CriterionName(i, k) + ":" + ScoreText(w.declaration(k));
    TwoSaid(h, i, AskDeclaration(k), Emit(SCORED, text));
    Marks(CriterionName(i, k));
  }

  lemma RecheckSaid(h: Digest, i: Intent, w: World, k: nat)
    requires k < Size(i)
    ensures LinesOf(h, i, [AskDispatch(k), Emit(RECHECK, CriterionName(i, k) + ":" + ScoreText(w.dispatch(k)))])
         == [RecheckLine(i, w, k)]
  {
    hide LinesOf, Id;
    var text := CriterionName(i, k) + ":" + ScoreText(w.dispatch(k));
    TwoSaid(h, i, AskDispatch(k), Emit(RECHECK, text));
    Marks(CriterionName(i, k));
  }

  lemma {:induction false} ScoreLines(h: Digest, i: Intent, w: World, from: nat, to: nat)
    requires from <= to <= Size(i)
    ensures Scores(i, w, from) + LinesOf(h, i, ScorePairs(i, w, from, to)) == Scores(i, w, to)
    decreases (to as int) - (from as int)
  {
    hide LinesOf, ScoreText, CriterionName, ScoredLine;
    if from == to {
      NoLines(h, i);
    } else {
      var pair := [AskDeclaration(from), Emit(SCORED, CriterionName(i, from) + ":" + ScoreText(w.declaration(from)))];
      ScoredSaid(h, i, w, from);
      ScoreLines(h, i, w, from + 1, to);
      LinesAppend(h, i, pair, ScorePairs(i, w, from + 1, to));
    }
  }

  lemma {:induction false} RecheckLines(h: Digest, i: Intent, w: World, from: nat, to: nat)
    requires from <= to <= Size(i)
    ensures Rechecks(i, w, from) + LinesOf(h, i, RecheckPairs(i, w, from, to)) == Rechecks(i, w, to)
    decreases (to as int) - (from as int)
  {
    hide LinesOf, ScoreText, CriterionName, RecheckLine;
    if from == to {
      NoLines(h, i);
    } else {
      var pair := [AskDispatch(from), Emit(RECHECK, CriterionName(i, from) + ":" + ScoreText(w.dispatch(from)))];
      RecheckSaid(h, i, w, from);
      RecheckLines(h, i, w, from + 1, to);
      if i.spec.criteria[from].volatility == "volatile" {
        LinesAppend(h, i, pair, RecheckPairs(i, w, from + 1, to));
      } else {
        assert [] + RecheckPairs(i, w, from + 1, to) == RecheckPairs(i, w, from + 1, to);
      }
    }
  }

  lemma {:induction false} FailingNames(i: Intent, w: World, from: nat)
    requires from <= Size(i)
    ensures Failing(i, w, from) + FailedNames(i, w, from) == Failing(i, w, Size(i))
    decreases Size(i) - from
  {
    if from < Size(i) {
      FailingNames(i, w, from + 1);
    }
  }

  // ---------------------------------------------------- rows, literally

  lemma EarlyStory(h: Digest, i: Intent, w: World)
    requires Decision(i, w) < SCORING_ROW
    ensures var row := Verdict(h, i, w);
      && LinesOf(h, i, Word(h, i, w)) == [Line("DECLARED", Id(h, i)), Line(Name(row.kind), row.detail)]
      && TerminalOf(row.kind) == FAILED
  {
    hide LinesOf, Decision, Id, Say, FirstMisspelled;
    var row := Verdict(h, i, w);
    var first, last := [Emit(DECLARED, Id(h, i))], [EndOf(row)];
    var middle := if Decision(i, w) > 2 then [AskRevoked] else [];
    assert Word(h, i, w) == first + middle + last;
    LinesAppend(h, i, first + middle, last);
    LinesAppend(h, i, first, middle);
    OneSaid(h, i, Emit(DECLARED, Id(h, i)));
    OneSaid(h, i, AskRevoked);
    NoLines(h, i);
    OneSaid(h, i, EndOf(row));
  }

  /** Every phrase the gate writes, word for word. */
  lemma Phrases()
    ensures Say(AbsentKey) == "absent-key" && Say(NoKey) == "unevaluable:absent-key"
    ensures Say(UnattestedSpec) == "unattested-spec:" && Say(NoAttestation) == "unevaluable:unattested-spec"
    ensures Say(InvalidPosture) == "invalid-posture:" && Say(NoPosture) == "unevaluable:invalid-posture"
    ensures Say(HumanJudgment) == "human-judgment:" && Say(NoHuman) == "unevaluable:human-judgment:"
    ensures Say(EmptyCriteria) == "empty-criteria:" && Say(NoCriteria) == "unevaluable:empty-criteria"
    ensures Say(InvalidVolatility) == "invalid-volatility:" && Say(NoVolatility) == "unevaluable:invalid-volatility:"
    ensures Say(Unscored) == "unevaluable:" && Say(Drifted) == "volatile-recheck:"
    ensures Say(RevokedBy) == "revoked:" && Say(Collided) == "idempotency-collision"
  {}

  /** The story a row ends an early refusal with. */
  function RowStory(h: Digest, i: Intent, w: World, r: nat): Story {
    var row := RowAt(h, i, w, r);
    Early(Id(h, i), Name(row.kind), row.detail, row.reason)
  }

  lemma DeclaredRows(h: Digest, i: Intent, w: World)
    ensures RowStory(h, i, w, 0) == Early(Id(h, i), "UNEVALUABLE", "absent-key", "unevaluable:absent-key")
    ensures RowStory(h, i, w, 1) ==
      Early(Id(h, i), "REVOKED", i.resolution.revokedRef, "revoked:" + i.resolution.revokedRef)
    ensures RowStory(h, i, w, 2) ==
      Early(Id(h, i), "UNEVALUABLE", "unattested-spec:" + i.specHash, "unevaluable:unattested-spec")
    ensures w.first.Some? ==>
      RowStory(h, i, w, 3) == Early(Id(h, i), "REVOKED", w.first.value, "revoked:" + w.first.value)
  {
    hide Say, FirstMisspelled, FirstUnscored, FirstDrifted, Id, Early;
    Phrases();
  }

  lemma AdmittedRows(h: Digest, i: Intent, w: World)
    ensures RowStory(h, i, w, 4) ==
      Early(Id(h, i), "UNEVALUABLE", "invalid-posture:" + i.spec.posture, "unevaluable:invalid-posture")
    ensures i.spec.humanJudgment != [] ==>
      RowStory(h, i, w, 5) == Early(Id(h, i), "UNEVALUABLE", "human-judgment:" + i.spec.humanJudgment[0],
                                    "unevaluable:human-judgment:" + i.spec.humanJudgment[0])
    ensures RowStory(h, i, w, 6) ==
      Early(Id(h, i), "UNEVALUABLE", "empty-criteria:" + i.specHash, "unevaluable:empty-criteria")
  {
    hide Say, FirstMisspelled, FirstUnscored, FirstDrifted, Id, Early;
    Phrases();
  }

  lemma MisspelledRow(h: Digest, i: Intent, w: World)
    requires FirstMisspelled(i) < Size(i)
    ensures var c := i.spec.criteria[FirstMisspelled(i)];
      RowStory(h, i, w, 7) ==
        Early(Id(h, i), "UNEVALUABLE", "invalid-volatility:" + c.name + ":" + c.volatility,
              "unevaluable:invalid-volatility:" + c.name)
  {
    hide Say, FirstMisspelled, FirstUnscored, FirstDrifted, Id, Early;
    Phrases();
  }

  lemma NotYets(i: Intent, w: World)
    ensures forall r: nat :: r < Decision(i, w) ==> !Applies(i, w, r)
    ensures Applies(i, w, Decision(i, w))
  {
    hide Applies;
  }

  lemma EarlyAccount(h: Digest, i: Intent, w: World)
    requires Decision(i, w) < SCORING_ROW
    ensures !Scorable(i, w) && RefusedEarly(i, w, Id(h, i), RowStory(h, i, w, Decision(i, w)))
  {
    hide Decision, Applies, RowStory, FirstMisspelled, Misspells, Early;
    Conditions(i, w);
    NotYets(i, w);
    if Decision(i, w) < 4 {
      DeclaredRows(h, i, w);
    } else if Decision(i, w) < 7 {
      AdmittedRows(h, i, w);
    } else {
      MisspelledRow(h, i, w);
      MisspelledAccount(h, i, w);
    }
  }

  lemma MisspelledAccount(h: Digest, i: Intent, w: World)
    requires FirstMisspelled(i) < Size(i)
    ensures Misspells(i, FirstMisspelled(i))
    ensures !Scorable(i, w)
  {
    hide FirstMisspelled;
    MisspelledAt(i);
  }

  // ---------------------------------------------------- calls that score

  lemma ScorableAt(i: Intent, w: World)
    ensures Decision(i, w) >= SCORING_ROW ==> Scorable(i, w)
  {
    hide Decision, Applies, FirstMisspelled;
    Conditions(i, w);
    NotYets(i, w);
    MisspelledAt(i);
  }

  /** A scored call's lines are its states, its scores and what follows them. */
  lemma ScoredLines(h: Digest, i: Intent, w: World)
    requires Decision(i, w) >= SCORING_ROW
    ensures LinesOf(h, i, Word(h, i, w)) ==
            Scored(i, w, Id(h, i), Through(FirstUnscored(i, w), Size(i))) + LinesOf(h, i, FailWord(h, i, w))
  {
    hide LinesOf, Decision, Id, Scores, ScorePairs, FailWord, RowAt, FirstUnscored;
    var scores := ScorePairs(i, w, 0, Through(FirstUnscored(i, w), Size(i)));
    var rest := scores + FailWord(h, i, w);
    var states := [Emit(RESOLVING, ""), Emit(ACTIVE, ""), Emit(VERIFYING, "")];
    assert Word(h, i, w) == ([Emit(DECLARED, Id(h, i))] + [AskRevoked]) + (states + rest);
    LinesAppend(h, i, [Emit(DECLARED, Id(h, i))] + [AskRevoked], states + rest);
    LinesAppend(h, i, states, rest);
    LinesAppend(h, i, scores, FailWord(h, i, w));
    OpeningLines(h, i);
    ScoreLines(h, i, w, 0, Through(FirstUnscored(i, w), Size(i)));
    assert Scores(i, w, 0) == [] by { NoScores(i, w); }
  }

  lemma NoScores(i: Intent, w: World)
    ensures Scores(i, w, 0) == [] && Rechecks(i, w, 0) == []
  {}

  lemma OpeningLines(h: Digest, i: Intent)
    ensures LinesOf(h, i, [Emit(DECLARED, Id(h, i))] + [AskRevoked]) == [Line("DECLARED", Id(h, i))]
    ensures LinesOf(h, i, [Emit(RESOLVING, ""), Emit(ACTIVE, ""), Emit(VERIFYING, "")]) == STATES
  {
    hide LinesOf, Id;
    TwoSaid(h, i, Emit(DECLARED, Id(h, i)), AskRevoked);
    assert [Emit(DECLARED, Id(h, i))] + [AskRevoked] == [Emit(DECLARED, Id(h, i)), AskRevoked];
    TwoSaid(h, i, Emit(RESOLVING, ""), Emit(ACTIVE, ""));
    OneSaid(h, i, Emit(VERIFYING, ""));
    LinesAppend(h, i, [Emit(RESOLVING, ""), Emit(ACTIVE, "")], [Emit(VERIFYING, "")]);
    assert [Emit(RESOLVING, ""), Emit(ACTIVE, "")] + [Emit(VERIFYING, "")]
        == [Emit(RESOLVING, ""), Emit(ACTIVE, ""), Emit(VERIFYING, "")];
  }

  /** The story of a call that scores, from its word and its verdict. */
  function LateStory(h: Digest, i: Intent, w: World): Story {
    var row := Verdict(h, i, w);
    Story(LinesOf(h, i, Word(h, i, w)), Name(TerminalOf(row.kind)), row.reason)
  }

  lemma UnscorableLines(h: Digest, i: Intent, w: World)
    requires FirstUnscored(i, w) < Size(i)
    ensures var name := i.spec.criteria[FirstUnscored(i, w)].name;
      LinesOf(h, i, FailWord(h, i, w)) == [Line("UNEVALUABLE", name), Line("FAILED", "unevaluable:" + name)]
  {
    hide LinesOf, Id, Say, FirstUnscored, FailedNames;
    Phrases();
    var name := i.spec.criteria[FirstUnscored(i, w)].name;
    TwoSaid(h, i, Emit(UNEVALUABLE, name), EmitFinal(FAILED, Say(Unscored) + name));
  }

  lemma UnscorableVerdict(h: Digest, i: Intent, w: World)
    requires FirstUnscored(i, w) < Size(i)
    ensures var row := RowAt(h, i, w, 8);
      && row.reason == "unevaluable:" + i.spec.criteria[FirstUnscored(i, w)].name
      && Name(TerminalOf(row.kind)) == "FAILED"
  {
    hide Say, FirstUnscored;
    Phrases();
  }

  lemma UnscorableCall(h: Digest, i: Intent, w: World)
    requires Decision(i, w) == 8
    ensures StoppedScoring(i, w, Id(h, i), LateStory(h, i, w))
  {
    hide LinesOf, Decision, Id, Scored, Word, FailWord, FirstUnscored, Failing, RowAt, Stumps, TerminalOf, Name;
    NotYets(i, w);
    StumpsAt(i, w);
    ScoredLines(h, i, w);
    UnscorableLines(h, i, w);
    UnscorableVerdict(h, i, w);
  }

  lemma StumpsAt(i: Intent, w: World)
    requires FirstUnscored(i, w) < Size(i)
    ensures Stumps(i, w, FirstUnscored(i, w)) && w.declaration(FirstUnscored(i, w)) !in {0, 1}
  {
    hide FirstUnscored;
    UnscoredAt(i, w);
  }

  lemma FailedCall(h: Digest, i: Intent, w: World)
    requires Decision(i, w) == 9
    ensures StoppedScoring(i, w, Id(h, i), LateStory(h, i, w))
  {
    hide LinesOf, Decision, Id, Scored, Word, FirstUnscored, Failing, FailedNames, Join, Applies;
    NotYets(i, w);
    Conditions(i, w);
    UnscoredAt(i, w);
    ScoredLines(h, i, w);
    FailingNames(i, w, 0);
    NoneFailing(i, w);
    assert Failing(i, w, Size(i)) == FailedNames(i, w, 0);
    OneSaid(h, i, EmitFinal(FAILED, Join(FailedNames(i, w, 0), ",")));
  }

  lemma NoneFailing(i: Intent, w: World)
    ensures Failing(i, w, 0) == []
  {}

  /** A call that passed every score goes on to its rechecks. */
  lemma RescoredLines(h: Digest, i: Intent, w: World)
    requires Decision(i, w) >= 10
    ensures Passed(i, w)
    ensures LinesOf(h, i, Word(h, i, w)) ==
            Rescored(i, w, Id(h, i), Through(FirstDrifted(i, w), Size(i))) + LinesOf(h, i, DriftWord(h, i, w))
  {
    hide LinesOf, Decision, Id, Scored, Word, FirstUnscored, FirstDrifted, FailedNames, Applies, DriftWord, Rechecks,
         RecheckPairs;
    NotYets(i, w);
    Conditions(i, w);
    Passing(i, w);
    ScoredLines(h, i, w);
    var v := Through(FirstDrifted(i, w), Size(i));
    LinesAppend(h, i, RecheckPairs(i, w, 0, v), DriftWord(h, i, w));
    RecheckLines(h, i, w, 0, v);
    NoScores(i, w);
  }

  lemma DriftLines(h: Digest, i: Intent, w: World)
    requires FirstDrifted(i, w) < Size(i)
    ensures var k := FirstDrifted(i, w);
      var name := i.spec.criteria[k].name;
      LinesOf(h, i, DriftWord(h, i, w)) ==
        (if w.dispatch(k) == 2 then [Line("UNEVALUABLE", name)] else [])
        + [Line("FAILED_AT_DISPATCH", "volatile-recheck:" + name)]
  {
    hide LinesOf, Id, Say, FirstDrifted, EdgeWord;
    Phrases();
    var k := FirstDrifted(i, w);
    var name := i.spec.criteria[k].name;
    var last := EmitFinal(FAILED_AT_DISPATCH, Say(Drifted) + name);
    OneSaid(h, i, Emit(UNEVALUABLE, name));
    NoLines(h, i);
    OneSaid(h, i, last);
    var before := if w.dispatch(k) == UNSCORED then [Emit(UNEVALUABLE, name)] else [];
    LinesAppend(h, i, before, [last]);
  }

  lemma DriftVerdict(h: Digest, i: Intent, w: World)
    requires FirstDrifted(i, w) < Size(i)
    ensures var row := RowAt(h, i, w, 10);
      && row.reason == "volatile-recheck:" + i.spec.criteria[FirstDrifted(i, w)].name
      && Name(TerminalOf(row.kind)) == "FAILED_AT_DISPATCH"
  {
    hide Say, FirstDrifted, FirstUnscored, FirstMisspelled, FailedNames;
    Phrases();
  }

  lemma DriftsAt(i: Intent, w: World)
    requires FirstDrifted(i, w) < Size(i)
    ensures Drifts(i, w, FirstDrifted(i, w)) && !PassedAgain(i, w)
  {
    hide FirstDrifted;
    DriftedAt(i, w);
  }

  lemma DriftedCall(h: Digest, i: Intent, w: World)
    requires Decision(i, w) == 10
    ensures !PassedAgain(i, w) && DriftedOff(i, w, Id(h, i), LateStory(h, i, w))
  {
    hide LinesOf, Decision, Id, Rescored, Word, DriftWord, FirstDrifted, RowAt, Drifts, TerminalOf, Name;
    NotYets(i, w);
    DriftsAt(i, w);
    RescoredLines(h, i, w);
    DriftLines(h, i, w);
    DriftVerdict(h, i, w);
  }

  lemma AtTheEdge(h: Digest, i: Intent, w: World)
    requires Decision(i, w) > 10
    ensures PassedAgain(i, w) && LateStory(h, i, w) == AtEdge(i, w, Id(h, i))
  {
    hide LinesOf, Decision, Id, Rescored, Word, FirstDrifted, Say, Applies, EdgeWord, Verdict;
    NotYets(i, w);
    Conditions(i, w);
    Passing(i, w);
    RescoredLines(h, i, w);
    EdgeLines(h, i, w);
    EdgeVerdict(h, i, w);
  }

  lemma EdgeLines(h: Digest, i: Intent, w: World)
    ensures LinesOf(h, i, EdgeWord(h, i, w)) ==
      if w.edge.Some? then [Line("REVOKED", w.edge.value), Line("FAILED_AT_DISPATCH", "revoked:" + w.edge.value)]
      else if i.spec.posture == "shadow" then [Line("SHADOW_RECORDED", Id(h, i))]
      else if !w.granted then [Line("FAILED_AT_DISPATCH", "idempotency-collision")]
      else [Line("IDEMPOTENCY_RESERVED", i.key), Line("ACHIEVED", Id(h, i))]
  {
    hide LinesOf, Id, Say;
    Phrases();
    if w.edge.Some? {
      var last := EmitFinal(FAILED_AT_DISPATCH, Say(RevokedBy) + w.edge.value);
      TwoSaid(h, i, AskRevoked, Emit(REVOKED, w.edge.value));
      OneSaid(h, i, last);
      LinesAppend(h, i, [AskRevoked, Emit(REVOKED, w.edge.value)], [last]);
      assert [AskRevoked, Emit(REVOKED, w.edge.value)] + [last] == EdgeWord(h, i, w);
    } else if i.spec.posture == "shadow" {
      TwoSaid(h, i, AskRevoked, EmitTraced(SHADOW_RECORDED));
    } else {
      TwoSaid(h, i, AskRevoked, AskReserve);
      var granted := [Emit(IDEMPOTENCY_RESERVED, i.key), EmitTraced(ACHIEVED)];
      var last := if w.granted then granted else [EmitFinal(FAILED_AT_DISPATCH, Say(Collided))];
      LinesAppend(h, i, [AskRevoked, AskReserve], last);
      assert [AskRevoked, AskReserve] + last == EdgeWord(h, i, w);
      TwoSaid(h, i, Emit(IDEMPOTENCY_RESERVED, i.key), EmitTraced(ACHIEVED));
      OneSaid(h, i, EmitFinal(FAILED_AT_DISPATCH, Say(Collided)));
    }
  }

  lemma EdgeVerdict(h: Digest, i: Intent, w: World)
    requires Decision(i, w) > 10
    ensures var row, edge := Verdict(h, i, w), AtEdge(i, w, Id(h, i));
      Name(TerminalOf(row.kind)) == edge.terminal && row.reason == edge.reason
  {
    hide Decision, Id, Rescored, Say, Applies, FirstMisspelled, FirstUnscored, FirstDrifted, FailedNames;
    NotYets(i, w);
    Conditions(i, w);
    Phrases();
  }

  // ---------------------------------------------------- the theorem

  /** What a finished call leaves behind and returns. */
  function StoryOf(s: Snap): Story
    requires s.pc.Done?
  {
    Story(Lines(s.recs), Name(s.pc.terminal), s.pc.reason)
  }

  /** Whatever its environment answers, a call leaves exactly the lines of the
      account, and returns its verdict. */
  lemma Accounted(h: Digest, job: Job, w: World)
    ensures Account(job.intent, w, Id(h, job.intent), StoryOf(Outcome(h, job, w)))
  {
    hide Outcome, Word, LinesOf, Decision, Verdict, Scorable, RefusedEarly, StoppedScoring, DriftedOff, AtEdge, Passed,
         PassedAgain, MirrorsOf, TerminalOf, Name, Lines;
    var i := job.intent;
    FollowsTable(h, job, w);
    RecordsFollowWord(h, job, w);
    MirrorLines(h, job, Word(h, i, w));
    if Decision(i, w) < SCORING_ROW {
      EarlyStory(h, i, w);
      EarlyAccount(h, i, w);
      EarlyEnds(h, i, w);
      assert StoryOf(Outcome(h, job, w)) == RowStory(h, i, w, Decision(i, w));
    } else {
      ScorableAt(i, w);
      assert StoryOf(Outcome(h, job, w)) == LateStory(h, i, w);
      LateAccount(h, i, w);
    }
  }

  lemma EarlyEnds(h: Digest, i: Intent, w: World)
    ensures var row, s := Verdict(h, i, w), RowStory(h, i, w, Decision(i, w));
      && s.lines == [Line("DECLARED", Id(h, i)), Line(Name(row.kind), row.detail)]
      && s.terminal == Name(FAILED) && s.reason == row.reason
  {
    hide Decision, RowAt;
  }

  lemma LateAccount(h: Digest, i: Intent, w: World)
    requires Decision(i, w) >= SCORING_ROW && Scorable(i, w)
    ensures Account(i, w, Id(h, i), LateStory(h, i, w))
  {
    hide Decision, LateStory, Scorable, RefusedEarly, StoppedScoring, DriftedOff, AtEdge, Passed, PassedAgain;
    if Decision(i, w) < 10 {
      NotPassed(i, w);
      if Decision(i, w) == 8 {
        UnscorableCall(h, i, w);
      } else {
        FailedCall(h, i, w);
      }
    } else {
      RescoredLines(h, i, w);
      if Decision(i, w) == 10 {
        DriftedCall(h, i, w);
      } else {
        AtTheEdge(h, i, w);
      }
    }
  }

  lemma NotPassed(i: Intent, w: World)
    requires 8 <= Decision(i, w) < 10
    ensures !Passed(i, w)
  {
    hide Decision, Applies, FirstUnscored, FailedNames;
    NotYets(i, w);
    Conditions(i, w);
    Passing(i, w);
  }

  // ---------------------------------------------------- what the records say

  /** A SCORED line is some criterion's answer at declaration, a RECHECK line
      some volatile criterion's answer at dispatch, and they say which. */
  ghost predicate Spoken(i: Intent, w: World, l: Line) {
    && (l.typ == "SCORED" ==> exists k: nat :: k < |i.spec.criteria| && Answered(i, k, w.declaration(k), l.detail))
    && (l.typ == "RECHECK" ==>
         exists k: nat ::
           && k < |i.spec.criteria| && i.spec.criteria[k].volatility == "volatile"
           && Answered(i, k, w.dispatch(k), l.detail))
  }

  ghost predicate Answered(i: Intent, k: nat, answer: int, text: string)
    requires k < |i.spec.criteria|
  {
    var name := i.spec.criteria[k].name;
    && (text == name + ":PASS" <==> answer == 0)
    && (text == name + ":FAIL" <==> answer == 1)
    && (text == name + ":UNEVALUABLE" <==> answer !in {0, 1})
  }

  lemma LinesAnswer(i: Intent, w: World, k: nat)
    requires k < |i.spec.criteria|
    ensures Answered(i, k, w.declaration(k), ScoredLine(i, w, k).detail)
    ensures Answered(i, k, w.dispatch(k), RecheckLine(i, w, k).detail)
  {
    var name := i.spec.criteria[k].name;
    assert (name + ":PASS")[|name|..] == ":PASS" && (name + ":FAIL")[|name|..] == ":FAIL";
    assert |name + ":UNEVALUABLE"| == |name| + 12;
    assert (name + ":PASS")[|name| + 1] == 'P' && (name + ":FAIL")[|name| + 1] == 'F';
  }

  lemma {:induction false} ScoresSpoken(i: Intent, w: World, n: nat)
    requires n <= |i.spec.criteria|
    ensures forall l :: l in Scores(i, w, n) ==> Spoken(i, w, l)
  {
    hide Answered;
    if n > 0 {
      ScoresSpoken(i, w, n - 1);
      LinesAnswer(i, w, n - 1);
    }
  }

  lemma {:induction false} RechecksSpoken(i: Intent, w: World, n: nat)
    requires n <= |i.spec.criteria|
    ensures forall l :: l in Rechecks(i, w, n) ==> Spoken(i, w, l)
  {
    hide Answered;
    if n > 0 {
      RechecksSpoken(i, w, n - 1);
      LinesAnswer(i, w, n - 1);
    }
  }

  lemma PrefixesSpoken(i: Intent, w: World, id: string)
    ensures forall n: nat, l ::
      n <= |i.spec.criteria| && (l in Scored(i, w, id, n) || l in Rescored(i, w, id, n)) ==> Spoken(i, w, l)
  {
    hide Scores, Rechecks, Spoken;
    ScoresSpoken(i, w, |i.spec.criteria|);
    forall n: nat | n <= |i.spec.criteria|
      ensures forall l :: l in Scored(i, w, id, n) || l in Rescored(i, w, id, n) ==> Spoken(i, w, l)
    {
      ScoresSpoken(i, w, n);
      RechecksSpoken(i, w, n);
      OthersSpoken(i, w);
    }
  }

  lemma OthersSpoken(i: Intent, w: World)
    ensures forall l: Line :: l.typ != "SCORED" && l.typ != "RECHECK" ==> Spoken(i, w, l)
  {}

  lemma EarlySpoken(i: Intent, w: World, id: string, s: Story)
    requires RefusedEarly(i, w, id, s)
    ensures forall l :: l in s.lines ==> Spoken(i, w, l)
  {
    hide Spoken, Misspells;
    OthersSpoken(i, w);
  }

  lemma StopSpoken(i: Intent, w: World, id: string, s: Story)
    requires StoppedScoring(i, w, id, s)
    ensures forall l :: l in s.lines ==> Spoken(i, w, l)
  {
    hide Scored, Rescored, Spoken, Failing;
    PrefixesSpoken(i, w, id);
    OthersSpoken(i, w);
  }

  lemma LateSpoken(i: Intent, w: World, id: string, s: Story)
    requires DriftedOff(i, w, id, s) || s == AtEdge(i, w, id)
    ensures forall l :: l in s.lines ==> Spoken(i, w, l)
  {
    hide Scored, Rescored, Spoken;
    PrefixesSpoken(i, w, id);
    OthersSpoken(i, w);
  }

  /** Every SCORED and RECHECK record of every call names a criterion and says
      PASS, FAIL or UNEVALUABLE exactly as the scorer answered. */
  lemma RecordsAnswer(h: Digest, job: Job, w: World)
    ensures forall l :: l in StoryOf(Outcome(h, job, w)).lines ==> Spoken(job.intent, w, l)
  {
    hide Finish, StoryOf, Spoken, Scorable, RefusedEarly, StoppedScoring, DriftedOff, AtEdge, Passed, PassedAgain;
    var i, id, s := job.intent, Id(h, job.intent), StoryOf(Outcome(h, job, w));
    Accounted(h, job, w);
    if RefusedEarly(i, w, id, s) {
      EarlySpoken(i, w, id, s);
    } else if StoppedScoring(i, w, id, s) {
      StopSpoken(i, w, id, s);
    } else {
      LateSpoken(i, w, id, s);
    }
  }

  // ---------------------------------------------------- what a grant says

  predicate EndsWith(s: string, suffix: string) { |suffix| <= |s| && s[|s| - |suffix|..] == suffix }

  lemma PassedLine(i: Intent, w: World, k: nat)
    requires k < |i.spec.criteria|
    ensures w.declaration(k) == 0 ==> ScoredLine(i, w, k) == Line("SCORED", i.spec.criteria[k].name + ":PASS")
    ensures w.dispatch(k) == 0 ==> RecheckLine(i, w, k) == Line("RECHECK", i.spec.criteria[k].name + ":PASS")
  {}

  lemma {:induction false} AllScored(i: Intent, w: World, n: nat)
    requires n <= |i.spec.criteria| && Passed(i, w)
    ensures forall k :: 0 <= k < n ==> Line("SCORED", i.spec.criteria[k].name + ":PASS") in Scores(i, w, n)
    ensures forall l :: l in Scores(i, w, n) ==> !EndsWith(l.detail, ":FAIL")
  {
    hide EndsWith, ScoredLine;
    if n > 0 {
      var passed := Line("SCORED", i.spec.criteria[n - 1].name + ":PASS");
      assert ScoredLine(i, w, n - 1) == passed by { PassedLine(i, w, n - 1); }
      assert Scores(i, w, n) == Scores(i, w, n - 1) + [passed];
      AllScored(i, w, n - 1);
      PassNotFail(i.spec.criteria[n - 1].name);
    }
  }

  lemma {:induction false} AllRescored(i: Intent, w: World, n: nat)
    requires n <= |i.spec.criteria| && PassedAgain(i, w)
    ensures forall k :: 0 <= k < n && i.spec.criteria[k].volatility == "volatile" ==>
      Line("RECHECK", i.spec.criteria[k].name + ":PASS") in Rechecks(i, w, n)
    ensures forall l :: l in Rechecks(i, w, n) ==> !EndsWith(l.detail, ":FAIL")
  {
    hide EndsWith, RecheckLine;
    if n > 0 {
      PassedLine(i, w, n - 1);
      AllRescored(i, w, n - 1);
      PassNotFail(i.spec.criteria[n - 1].name);
    }
  }

  lemma PassNotFail(name: string)
    ensures !EndsWith(name + ":PASS", ":FAIL")
  {
    var text := name + ":PASS";
    assert text[|text| - 5..] == ":PASS";
    assert ":PASS"[1] == 'P' && ":FAIL"[1] == 'F';
  }

  /** A granted call has said PASS of every criterion, PASS again of every
      volatile one, and FAIL of none; its last two records are the reservation
      of its key and the grant. */
  lemma GrantSays(h: Digest, job: Job, w: World)
    requires Outcome(h, job, w).pc.terminal == ACHIEVED
    ensures var cs, lines := job.intent.spec.criteria, StoryOf(Outcome(h, job, w)).lines;
      && (forall k :: 0 <= k < |cs| ==> Line("SCORED", cs[k].name + ":PASS") in lines)
      && (forall k :: 0 <= k < |cs| && cs[k].volatility == "volatile" ==>
            Line("RECHECK", cs[k].name + ":PASS") in lines)
      && (forall l :: l in lines && (l.typ == "SCORED" || l.typ == "RECHECK") ==> !EndsWith(l.detail, ":FAIL"))
      && |lines| >= 6 && lines[|lines| - 1] == Line("ACHIEVED", Id(h, job.intent))
      && lines[|lines| - 2] == Line("IDEMPOTENCY_RESERVED", job.intent.key)
  {
    hide Outcome, StoryOf, Scores, Rechecks, EndsWith, Deserved, Id;
    var i := job.intent;
    Accounted(h, job, w);
    AchievedExactly(h, job, w);
    DeservedPlainly(i, w);
    AllScored(i, w, |i.spec.criteria|);
    AllRescored(i, w, |i.spec.criteria|);
  }

  lemma DeservedPlainly(i: Intent, w: World)
    ensures Deserved(i, w) <==>
      && i.key != "" && i.resolution.revokedRef == "" && i.resolution.attested
      && w.first.None? && i.spec.posture == "enforce" && i.spec.humanJudgment == [] && i.spec.criteria != []
      && (forall k :: 0 <= k < |i.spec.criteria| ==> i.spec.criteria[k].volatility in {"stable", "volatile"})
      && Passed(i, w) && PassedAgain(i, w) && w.edge.None? && w.granted
  {}

  // ---------------------------------------------------- the other columns

  /** A record carries the call's intent and its place in it; only scores name
      the scorer, and only a grant or a shadow the key, the rule and the spec
      they stand on. */
  ghost predicate Columns(h: Digest, job: Job, r: Record, k: int) {
    && r.intentId == Id(h, job.intent) && r.intentSeq == k
    && r.scorerId == (if r.typ == "SCORED" || r.typ == "RECHECK" then job.scorerId else "")
    && (if r.typ == "ACHIEVED" || r.typ == "SHADOW_RECORDED"
        then r.key == job.intent.key && r.ruleHash == job.intent.ruleHash && r.specHash == job.intent.specHash
        else r.key == "" && r.ruleHash == "" && r.specHash == "")
  }

  lemma MirrorColumns(h: Digest, job: Job, request: Request, log: seq<Audit.Event>)
    requires Emits(request) && (request.EmitTraced? <==> Traced(request.kind))
    requires request.EmitFinal? ==> Final(request.kind)
    ensures Columns(h, job, Mirror(h, job, request, log), |log|)
  {
    hide Id, Audit.HashOf;
  }

  lemma AskedKinds(h: Digest, i: Intent, pc: Pc)
    requires ValidPc(i, pc)
    ensures Ask(h, i, pc).Emit? ==> !Traced(Ask(h, i, pc).kind)
  {
    hide Id, ScoreText;
  }

  lemma NextColumns(h: Digest, job: Job, w: World, s: Snap)
    requires RunInv(h, job, s) && !s.pc.Done? && Emits(Ask(h, job.intent, s.pc))
    ensures Columns(h, job, NextRecord(h, job, s), |s.recs|)
  {
    hide Ask, Mirror, RecsInv, RefusalShape, Columns, EventsOf;
    var request := Ask(h, job.intent, s.pc);
    AskHasShape(h, job.intent, s.pc);
    AskedKinds(h, job.intent, s.pc);
    if request.EmitFinal? {
      FinalKinds(s.pc.kind, s.pc.detail, s.pc.reason);
    }
    MirrorColumns(h, job, request, EventsOf(s.recs));
  }

  lemma FinalKinds(kind: Kind, detail: string, reason: string)
    requires RefusalShape(kind, detail, reason)
    ensures Final(kind) && !Traced(kind)
  {
    hide Say;
  }

  lemma {:induction false} FinishColumns(h: Digest, job: Job, w: World, s: Snap)
    requires RunInv(h, job, s) && forall k :: 0 <= k < |s.recs| ==> Columns(h, job, s.recs[k], k)
    ensures var r := Finish(h, job, w, s);
      RunInv(h, job, r) && forall k :: 0 <= k < |r.recs| ==> Columns(h, job, r.recs[k], k)
    decreases Stage(s.pc), Left(job.intent, s.pc)
  {
    hide Stage, Left, Ask, NextRecord, Advance, Columns, PcInv, RecsInv;
    if !s.pc.Done? {
      Decreases(h, job, w, s);
      NextInv(h, job, w, s);
      if Emits(Ask(h, job.intent, s.pc)) {
        NextColumns(h, job, w, s);
      }
      FinishColumns(h, job, w, Next(h, job, w, s));
    }
  }

  /** So every record of every call; and only its last commits to a hash. */
  lemma ColumnsExactly(h: Digest, job: Job, w: World)
    ensures var recs := Outcome(h, job, w).recs;
      && (forall k :: 0 <= k < |recs| ==> Columns(h, job, recs[k], k))
      && |recs| >= 2 && recs[|recs| - 1].hash == Audit.HashOf(h, EventsOf(recs))
      && forall k :: 0 <= k < |recs| - 1 ==> recs[k].hash == ""
  {
    hide Finish, Columns, PcInv, EventsOf, Id, Name, RefusalShape;
    StartInv(h, job);
    FinishColumns(h, job, w, START);
    var s := Outcome(h, job, w);
    assert Closing(h, job, s.pc, s.recs);
    assert forall k :: 0 <= k < |s.recs| - 1 ==> Interior(h, job, s.recs[k]);
  }
}
