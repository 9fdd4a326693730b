// The decision of the gate as a table, and its log as one word of one grammar:
// an account of Authorize that does not mention program points.

module GateSpec {
  import opened Text
  import opened Hashing
  import opened Intents
  import opened Lifecycle
  import opened Gate
  import opened Seqs

  // ---------------------------------------------------- the decision table

  /** One row of CONTRACT.md section 4.2: the record it ends the run with, and
      the reason it reports. */
  datatype Row = Row(kind: Kind, detail: string, reason: string)

  function Size(i: Intent): nat { |i.spec.criteria| }

  function CriterionName(i: Intent, k: nat): string { if k < Size(i) then i.spec.criteria[k].name else "" }

  function CriterionVolatility(i: Intent, k: nat): string {
    if k < Size(i) then i.spec.criteria[k].volatility else ""
  }

  function FirstHuman(i: Intent): string { if i.spec.humanJudgment == [] then "" else i.spec.humanJudgment[0] }

  function Ref(r: Option<string>): string { if r.Some? then r.value else "" }

  /** The first criterion the scorer could not score, or Size. */
  function FirstUnscored(i: Intent, w: World): (k: nat)
    ensures k <= Size(i)
  {
    First(0, Size(i), (k: nat) => w.declaration(k) != PASS && w.declaration(k) != FAIL)
  }

  /** The first volatile criterion that did not pass again, or Size. */
  function FirstDrifted(i: Intent, w: World): (k: nat)
    ensures k <= Size(i)
  {
    First(0, Size(i), (k: nat) => VolatileAt(i)(k) && w.dispatch(k) != PASS)
  }

  function FirstMisspelled(i: Intent): (k: nat)
    ensures k <= Size(i)
  {
    First(0, Size(i), Misspelled(i))
  }

  /** Names of the criteria from `from` on that failed at declaration. */
  function FailedNames(i: Intent, w: World, from: nat): seq<string>
    requires from <= Size(i)
    decreases Size(i) - from
  {
    if from == Size(i) then []
    else (if w.declaration(from) == FAIL then [CriterionName(i, from)] else []) + FailedNames(i, w, from + 1)
  }

  const SCORING_ROW := 8
  const ROWS := 15

  /** When each row of the decision applies, in refusal order. Rows below
      SCORING_ROW are decided without scoring anything. */
  predicate Applies(i: Intent, w: World, r: nat) {
    if r == 0 then i.key == ""
    else if r == 1 then i.resolution.revokedRef != ""
    else if r == 2 then !i.resolution.attested
    else if r == 3 then w.first.Some?
    else if r == 4 then i.spec.posture != "enforce" && i.spec.posture != "shadow"
    else if r == 5 then i.spec.humanJudgment != []
    else if r == 6 then Size(i) == 0
    else if r == 7 then FirstMisspelled(i) < Size(i)
    else if r == 8 then FirstUnscored(i, w) < Size(i)
    else if r == 9 then FailedNames(i, w, 0) != []
    else if r == 10 then FirstDrifted(i, w) < Size(i)
    else if r == 11 then w.edge.Some?
    else if r == 12 then i.spec.posture == "shadow"
    else if r == 13 then !w.granted
    else true
  }

  /** What each row ends the run with. */
  function RowAt(h: Digest, i: Intent, w: World, r: nat): Row {
    if r == 0 then Row(UNEVALUABLE, Say(AbsentKey), Say(NoKey))
    else if r == 1 then Row(REVOKED, i.resolution.revokedRef, Say(RevokedBy) + i.resolution.revokedRef)
    else if r == 2 then Row(UNEVALUABLE, Say(UnattestedSpec) + i.specHash, Say(NoAttestation))
    else if r == 3 then Row(REVOKED, Ref(w.first), Say(RevokedBy) + Ref(w.first))
    else if r == 4 then Row(UNEVALUABLE, Say(InvalidPosture) + i.spec.posture, Say(NoPosture))
    else if r == 5 then
      Row(UNEVALUABLE, Say(HumanJudgment) + FirstHuman(i), Say(NoHuman) + FirstHuman(i))
    else if r == 6 then Row(UNEVALUABLE, Say(EmptyCriteria) + i.specHash, Say(NoCriteria))
    else if r == 7 then
      var bad := FirstMisspelled(i);
      Row(UNEVALUABLE, Say(InvalidVolatility) + CriterionName(i, bad) + ":" + CriterionVolatility(i, bad),
          Say(NoVolatility) + CriterionName(i, bad))
    else if r == 8 then
      var unscored := Say(Unscored) + CriterionName(i, FirstUnscored(i, w));
      Row(FAILED, unscored, unscored)
    else if r == 9 then
      var failed := Join(FailedNames(i, w, 0), ",");
      Row(FAILED, failed, failed)
    else if r == 10 then
      var drifted := Say(Drifted) + CriterionName(i, FirstDrifted(i, w));
      Row(FAILED_AT_DISPATCH, drifted, drifted)
    else if r == 11 then Row(FAILED_AT_DISPATCH, Say(RevokedBy) + Ref(w.edge), Say(RevokedBy) + Ref(w.edge))
    else if r == 12 then Row(SHADOW_RECORDED, Id(h, i), "")
    else if r == 13 then Row(FAILED_AT_DISPATCH, Say(Collided), Say(Collided))
    else Row(ACHIEVED, Id(h, i), "")
  }

  function DecisionFrom(i: Intent, w: World, r: nat): (d: nat)
    requires r < ROWS
    ensures r <= d < ROWS && Applies(i, w, d)
    ensures forall j :: r <= j < d ==> !Applies(i, w, j)
    decreases ROWS - r
  {
    if r + 1 == ROWS || Applies(i, w, r) then r else DecisionFrom(i, w, r + 1)
  }

  /** The first row that applies decides. */
  function Decision(i: Intent, w: World): (d: nat)
    ensures d < ROWS && Applies(i, w, d)
    ensures forall j :: 0 <= j < d ==> !Applies(i, w, j)
  {
    DecisionFrom(i, w, 0)
  }

  function Verdict(h: Digest, i: Intent, w: World): Row { RowAt(h, i, w, Decision(i, w)) }

  // ---------------------------------------------------- the grammar

  /** Scorer call and SCORED event, one pair per criterion in slice order. */
  function ScorePairs(i: Intent, w: World, from: nat, to: nat): seq<Request>
    requires from <= to <= Size(i)
    decreases (to as int) - (from as int)
  {
    if from == to then []
    else [AskDeclaration(from),
          Emit(SCORED, CriterionName(i, from) + ":" + ScoreText(w.declaration(from)))]
         + ScorePairs(i, w, from + 1, to)
  }

  /** The same for the recheck, volatile criteria only. */
  function RecheckPairs(i: Intent, w: World, from: nat, to: nat): seq<Request>
    requires from <= to <= Size(i)
    decreases (to as int) - (from as int)
  {
    if from == to then []
    else (if IsVolatile(i.spec.criteria[from])
          then [AskDispatch(from), Emit(RECHECK, CriterionName(i, from) + ":" + ScoreText(w.dispatch(from)))]
          else [])
         + RecheckPairs(i, w, from + 1, to)
  }

  function Through(k: nat, n: nat): nat { if k < n then k + 1 else n }

  function EndOf(row: Row): Request {
    if row.kind == ACHIEVED || row.kind == SHADOW_RECORDED then EmitTraced(row.kind)
    else EmitFinal(row.kind, row.detail)
  }

  /** What follows the last recheck. */
  function EdgeWord(h: Digest, i: Intent, w: World): seq<Request> {
    if w.edge.Some? then
      [AskRevoked, Emit(REVOKED, w.edge.value),
       EmitFinal(FAILED_AT_DISPATCH, Say(RevokedBy) + w.edge.value)]
    else if i.spec.posture == "shadow" then [AskRevoked, EmitTraced(SHADOW_RECORDED)]
    else if !w.granted then [AskRevoked, AskReserve, EmitFinal(FAILED_AT_DISPATCH, Say(Collided))]
    else [AskRevoked, AskReserve, Emit(IDEMPOTENCY_RESERVED, i.key), EmitTraced(ACHIEVED)]
  }

  /** After the last recheck: the drifted criterion, or the edge. */
  function DriftWord(h: Digest, i: Intent, w: World): seq<Request> {
    var v := FirstDrifted(i, w);
    if v < Size(i) then
      (if w.dispatch(v) == UNSCORED then [Emit(UNEVALUABLE, CriterionName(i, v))] else [])
      + [EmitFinal(FAILED_AT_DISPATCH, Say(Drifted) + CriterionName(i, v))]
    else EdgeWord(h, i, w)
  }

  /** After the last score: the unscored criterion, the failed ones, or the
      rechecks. */
  function FailWord(h: Digest, i: Intent, w: World): seq<Request> {
    var u := FirstUnscored(i, w);
    if u < Size(i) then
      [Emit(UNEVALUABLE, CriterionName(i, u)), EmitFinal(FAILED, Say(Unscored) + CriterionName(i, u))]
    else if FailedNames(i, w, 0) != [] then [EmitFinal(FAILED, Join(FailedNames(i, w, 0), ","))]
    else RecheckPairs(i, w, 0, Through(FirstDrifted(i, w), Size(i))) + DriftWord(h, i, w)
  }

  function ScoreWord(h: Digest, i: Intent, w: World): seq<Request> {
    ScorePairs(i, w, 0, Through(FirstUnscored(i, w), Size(i))) + FailWord(h, i, w)
  }

  /** Everything one call asks of its environment, in order. */
  function Word(h: Digest, i: Intent, w: World): seq<Request> {
    var r := Decision(i, w);
    [Emit(DECLARED, Id(h, i))] +
    (if r > 2 then [AskRevoked] else []) +
    (if r < SCORING_ROW then [EndOf(RowAt(h, i, w, r))]
     else [Emit(RESOLVING, ""), Emit(ACTIVE, ""), Emit(VERIFYING, "")] + ScoreWord(h, i, w))
  }

  // ---------------------------------------------------- the program follows it

  /** What the program still asks from `pc` on, and where it stops. */
  function Rest(h: Digest, i: Intent, w: World, pc: Pc): (t: (seq<Request>, Pc))
    requires ValidPc(i, pc)
    decreases Stage(pc), Left(i, pc)
  {
    hide Say, Stage, Left, Ask, Advance;
    if pc.Done? then ([], pc)
    else
      AdvanceCloser(i, w, pc);
      var tail := Rest(h, i, w, Advance(i, w, pc));
      ([Ask(h, i, pc)] + tail.0, tail.1)
  }

  lemma {:induction false} FinishRest(h: Digest, job: Job, w: World, s: Snap)
    requires ValidSnap(job, s)
    ensures var r := Finish(h, job, w, s);
      r.trace == s.trace + Rest(h, job.intent, w, s.pc).0 && r.pc == Rest(h, job.intent, w, s.pc).1
    decreases Stage(s.pc), Left(job.intent, s.pc)
  {
    hide Say, Stage, Left, Ask, Advance, NextRecord, Clocked;
    if !s.pc.Done? {
      Decreases(h, job, w, s);
      FinishRest(h, job, w, Next(h, job, w, s));
      RestStep(h, job.intent, w, s.pc);
      Assoc(s.trace, [Ask(h, job.intent, s.pc)], Rest(h, job.intent, w, Advance(job.intent, w, s.pc)).0);
    }
  }

  lemma RestStep(h: Digest, i: Intent, w: World, pc: Pc)
    requires ValidPc(i, pc) && !pc.Done?
    ensures var tail := Rest(h, i, w, Advance(i, w, pc));
      Rest(h, i, w, pc) == ([Ask(h, i, pc)] + tail.0, tail.1)
  {
    hide Say, Ask, Advance, Stage, Left;
  }

  ghost predicate Follows(h: Digest, i: Intent, w: World, pc: Pc, word: seq<Request>, end: Pc) {
    ValidPc(i, pc) && Rest(h, i, w, pc) == (word, end)
  }

  lemma Step(h: Digest, i: Intent, w: World, pc: Pc, request: Request, word: seq<Request>, end: Pc)
    requires ValidPc(i, pc) && !pc.Done? && Ask(h, i, pc) == request
    requires Follows(h, i, w, Advance(i, w, pc), word, end)
    ensures Follows(h, i, w, pc, [request] + word, end)
  {
    hide Say, Ask, Advance, Stage, Left;
  }

  lemma Stop(h: Digest, i: Intent, w: World, terminal: Kind, reason: string)
    ensures Follows(h, i, w, Done(terminal, reason), [], Done(terminal, reason))
  {
    hide Say, Ask, Advance, Stage, Left;
  }

  lemma RefusalFollows(h: Digest, i: Intent, w: World, kind: Kind, detail: string, reason: string)
    ensures Follows(h, i, w, Refusing(kind, detail, reason), [EmitFinal(kind, detail)], Done(TerminalOf(kind), reason))
  {
    hide Say, Follows;
    var end := Done(TerminalOf(kind), reason);
    Stop(h, i, w, TerminalOf(kind), reason);
    Step(h, i, w, Refusing(kind, detail, reason), EmitFinal(kind, detail), [], end);
    assert [EmitFinal(kind, detail)] + [] == [EmitFinal(kind, detail)];
  }

  /** The verdict of a run that reached the dispatch edge. */
  function EdgeEnd(w: World, i: Intent): Pc {
    if w.edge.Some? then Done(FAILED_AT_DISPATCH, Say(RevokedBy) + w.edge.value)
    else if i.spec.posture == "shadow" then Done(SHADOW_RECORDED, "")
    else if !w.granted then Done(FAILED_AT_DISPATCH, Say(Collided))
    else Done(ACHIEVED, "")
  }

  lemma EdgeFollows(h: Digest, i: Intent, w: World)
    ensures Follows(h, i, w, EdgeCheck, EdgeWord(h, i, w), EdgeEnd(w, i))
  {
    hide *;
    if w.edge.Some? {
      RevokedFollows(h, i, w);
    } else if i.spec.posture == "shadow" {
      ShadowFollows(h, i, w);
    } else if !w.granted {
      CollisionFollows(h, i, w);
    } else {
      GrantFollows(h, i, w);
    }
  }

  lemma RevokedFollows(h: Digest, i: Intent, w: World)
    requires w.edge.Some?
    ensures Follows(h, i, w, EdgeCheck, EdgeWord(h, i, w), EdgeEnd(w, i))
  {
    hide Say, Follows;
    var reason, end := Say(RevokedBy) + w.edge.value, EdgeEnd(w, i);
    var w1 := [EmitFinal(FAILED_AT_DISPATCH, reason)];
    RefusalFollows(h, i, w, FAILED_AT_DISPATCH, reason, reason);
    Step(h, i, w, EdgeRevoked(w.edge.value), Emit(REVOKED, w.edge.value), w1, end);
    Step(h, i, w, EdgeCheck, AskRevoked, [Emit(REVOKED, w.edge.value)] + w1, end);
    assert [AskRevoked] + ([Emit(REVOKED, w.edge.value)] + w1) == EdgeWord(h, i, w);
  }

  lemma ShadowFollows(h: Digest, i: Intent, w: World)
    requires w.edge.None? && i.spec.posture == "shadow"
    ensures Follows(h, i, w, EdgeCheck, EdgeWord(h, i, w), EdgeEnd(w, i))
  {
    hide Say, Follows;
    var end := EdgeEnd(w, i);
    Stop(h, i, w, SHADOW_RECORDED, "");
    Step(h, i, w, Shadowing, EmitTraced(SHADOW_RECORDED), [], end);
    Step(h, i, w, EdgeCheck, AskRevoked, [EmitTraced(SHADOW_RECORDED)] + [], end);
    assert [AskRevoked] + ([EmitTraced(SHADOW_RECORDED)] + []) == EdgeWord(h, i, w);
  }

  lemma CollisionFollows(h: Digest, i: Intent, w: World)
    requires w.edge.None? && i.spec.posture != "shadow" && !w.granted
    ensures Follows(h, i, w, EdgeCheck, EdgeWord(h, i, w), EdgeEnd(w, i))
  {
    hide Say, Follows;
    var reason, end := Say(Collided), EdgeEnd(w, i);
    var w1 := [EmitFinal(FAILED_AT_DISPATCH, reason)];
    RefusalFollows(h, i, w, FAILED_AT_DISPATCH, reason, reason);
    Step(h, i, w, Reserving, AskReserve, w1, end);
    Step(h, i, w, EdgeCheck, AskRevoked, [AskReserve] + w1, end);
    assert [AskRevoked] + ([AskReserve] + w1) == EdgeWord(h, i, w);
  }

  lemma GrantFollows(h: Digest, i: Intent, w: World)
    requires w.edge.None? && i.spec.posture != "shadow" && w.granted
    ensures Follows(h, i, w, EdgeCheck, EdgeWord(h, i, w), EdgeEnd(w, i))
  {
    hide Say, Follows;
    Stop(h, i, w, ACHIEVED, "");
    Step(h, i, w, Achieving, EmitTraced(ACHIEVED), [], EdgeEnd(w, i));
    var w1 := [EmitTraced(ACHIEVED)] + [];
    Step(h, i, w, Granting, Emit(IDEMPOTENCY_RESERVED, i.key), w1, EdgeEnd(w, i));
    var w2 := [Emit(IDEMPOTENCY_RESERVED, i.key)] + w1;
    Step(h, i, w, Reserving, AskReserve, w2, EdgeEnd(w, i));
    Step(h, i, w, EdgeCheck, AskRevoked, [AskReserve] + w2, EdgeEnd(w, i));
    assert [AskRevoked] + ([AskReserve] + w2) == EdgeWord(h, i, w);
  }

  function DriftEnd(i: Intent, w: World): Pc {
    if FirstDrifted(i, w) < Size(i)
    then Done(FAILED_AT_DISPATCH, Say(Drifted) + CriterionName(i, FirstDrifted(i, w)))
    else EdgeEnd(w, i)
  }

  lemma DriftFollows(h: Digest, i: Intent, w: World)
    requires FirstDrifted(i, w) < Size(i)
    ensures var v := FirstDrifted(i, w);
      Follows(h, i, w, Advance(i, w, Rechecked(v, w.dispatch(v))), DriftWord(h, i, w), DriftEnd(i, w))
  {
    hide Say, Follows, FirstDrifted;
    var v := FirstDrifted(i, w);
    DriftedAt(i, w);
    var reason := Say(Drifted) + CriterionName(i, v);
    RefusalFollows(h, i, w, FAILED_AT_DISPATCH, reason, reason);
    if w.dispatch(v) == UNSCORED {
      Step(h, i, w, Unchecked(v), Emit(UNEVALUABLE, CriterionName(i, v)), [EmitFinal(FAILED_AT_DISPATCH, reason)],
           DriftEnd(i, w));
    } else {
      assert [] + [EmitFinal(FAILED_AT_DISPATCH, reason)] == [EmitFinal(FAILED_AT_DISPATCH, reason)];
    }
  }

  /** What it means to be the first criterion that drifted. */
  lemma DriftedAt(i: Intent, w: World)
    ensures var v := FirstDrifted(i, w);
      && (forall j :: 0 <= j < v && VolatileAt(i)(j) ==> w.dispatch(j) == PASS)
      && (v < Size(i) ==> VolatileAt(i)(v) && w.dispatch(v) != PASS)
  {
    var p := (k: nat) => VolatileAt(i)(k) && w.dispatch(k) != PASS;
    var v := First(0, Size(i), p);
    forall j: nat | 0 <= j < v && VolatileAt(i)(j)
      ensures w.dispatch(j) == PASS
    {
      assert !p(j);
    }
  }

  lemma UnscoredAt(i: Intent, w: World)
    ensures var u := FirstUnscored(i, w);
      && (forall j :: 0 <= j < u ==> w.declaration(j) == PASS || w.declaration(j) == FAIL)
      && (u < Size(i) ==> w.declaration(u) != PASS && w.declaration(u) != FAIL)
  {
    var p := (k: nat) => w.declaration(k) != PASS && w.declaration(k) != FAIL;
    var u := First(0, Size(i), p);
    forall j: nat | 0 <= j < u
      ensures w.declaration(j) == PASS || w.declaration(j) == FAIL
    {
      assert !p(j);
    }
  }

  lemma {:induction false} SkipStable(i: Intent, w: World, k: nat, c: nat, to: nat)
    requires k <= c <= to <= Size(i)
    requires forall j :: k <= j < c ==> !VolatileAt(i)(j)
    ensures RecheckPairs(i, w, k, to) == RecheckPairs(i, w, c, to)
    decreases c - k
  {
    if k < c {
      assert !VolatileAt(i)(k);
      SkipStable(i, w, k + 1, c, to);
    }
  }

  /** From the recheck of criterion `k` on, the program follows the word. */
  ghost predicate RechecksFrom(h: Digest, i: Intent, w: World, k: nat, pc: Pc)
    requires k <= Through(FirstDrifted(i, w), Size(i))
  {
    Follows(h, i, w, pc,
            RecheckPairs(i, w, k, Through(FirstDrifted(i, w), Size(i))) + DriftWord(h, i, w), DriftEnd(i, w))
  }

  lemma {:induction false} RecheckFollows(h: Digest, i: Intent, w: World, k: nat)
    requires k <= FirstDrifted(i, w)
    ensures RechecksFrom(h, i, w, k, NextRecheck(i, k))
    decreases Size(i) - k, 1
  {
    hide Say, RechecksFrom, FirstDrifted, RecheckPairs;
    var c := First(k, Size(i), VolatileAt(i));
    NextVolatile(i, w, k);
    if c == Size(i) {
      NothingDrifted(h, i, w);
    } else {
      RecheckAt(h, i, w, c);
    }
    RechecksSkip(h, i, w, k, c);
  }

  /** The program is about to recheck volatile criterion `c`. */
  lemma {:induction false} RecheckAt(h: Digest, i: Intent, w: World, c: nat)
    requires c <= FirstDrifted(i, w) && c < Size(i) && VolatileAt(i)(c)
    ensures RechecksFrom(h, i, w, c, Rechecking(c))
    decreases Size(i) - c, 0
  {
    hide Say, RechecksFrom, FirstDrifted;
    if c < FirstDrifted(i, w) {
      DriftedAt(i, w);
      RecheckFollows(h, i, w, c + 1);
      RechecksNext(h, i, w, c);
    } else {
      RechecksStop(h, i, w);
    }
  }

  lemma RechecksSkip(h: Digest, i: Intent, w: World, k: nat, c: nat)
    requires k <= FirstDrifted(i, w) && c == First(k, Size(i), VolatileAt(i))
    requires c <= FirstDrifted(i, w)
    requires RechecksFrom(h, i, w, c, if c < Size(i) then Rechecking(c) else EdgeCheck)
    ensures RechecksFrom(h, i, w, k, NextRecheck(i, k))
  {
    hide Say, Follows, FirstDrifted, DriftWord, DriftEnd, RecheckPairs, VolatileAt;
    NextVolatile(i, w, k);
  }

  lemma RechecksNext(h: Digest, i: Intent, w: World, c: nat)
    requires c < FirstDrifted(i, w) && VolatileAt(i)(c) && w.dispatch(c) == PASS
    requires RechecksFrom(h, i, w, c + 1, NextRecheck(i, c + 1))
    ensures RechecksFrom(h, i, w, c, Rechecking(c))
  {
    hide Say, Follows, FirstDrifted, DriftWord, DriftEnd, RecheckPairs, Ask, Advance, NextRecheck;
    RecheckStep(h, i, w, c);
    RecheckPair(h, i, w, c);
  }

  lemma RechecksStop(h: Digest, i: Intent, w: World)
    requires FirstDrifted(i, w) < Size(i) && VolatileAt(i)(FirstDrifted(i, w))
    ensures RechecksFrom(h, i, w, FirstDrifted(i, w), Rechecking(FirstDrifted(i, w)))
  {
    hide Say, Follows, FirstDrifted, DriftWord, DriftEnd, RecheckPairs, Ask, Advance;
    DriftFollows(h, i, w);
    LastRecheck(h, i, w);
    RecheckPair(h, i, w, FirstDrifted(i, w));
  }

  lemma NextVolatile(i: Intent, w: World, k: nat)
    requires k <= FirstDrifted(i, w)
    ensures var v, c := FirstDrifted(i, w), First(k, Size(i), VolatileAt(i));
      && c <= v && (c == Size(i) ==> Through(v, Size(i)) == c) && c <= Through(v, Size(i))
      && RecheckPairs(i, w, k, Through(v, Size(i))) == RecheckPairs(i, w, c, Through(v, Size(i)))
      && (c < Size(i) ==> VolatileAt(i)(c))
      && (c < v ==> w.dispatch(c) == PASS)
  {
    hide Say, FirstDrifted, RecheckPairs;
    var v, n := FirstDrifted(i, w), Size(i);
    var c := First(k, n, VolatileAt(i));
    DriftedAt(i, w);
    assert c > v ==> !VolatileAt(i)(v);
    SkipStable(i, w, k, c, Through(v, n));
  }

  lemma NothingDrifted(h: Digest, i: Intent, w: World)
    requires FirstDrifted(i, w) == Size(i)
    ensures RechecksFrom(h, i, w, Size(i), EdgeCheck)
  {
    hide Say, Follows, FirstDrifted, EdgeWord, EdgeEnd;
    EdgeFollows(h, i, w);
    assert [] + EdgeWord(h, i, w) == EdgeWord(h, i, w);
  }

  lemma LastRecheck(h: Digest, i: Intent, w: World)
    requires FirstDrifted(i, w) < Size(i)
    ensures var v := FirstDrifted(i, w);
      RecheckPairs(i, w, v + 1, Through(v, Size(i))) + DriftWord(h, i, w) == DriftWord(h, i, w)
  {
    hide Say, FirstDrifted, DriftWord;
  }

  lemma RecheckStep(h: Digest, i: Intent, w: World, c: nat)
    requires c < Size(i) && VolatileAt(i)(c)
    ensures Ask(h, i, Rechecking(c)) == AskDispatch(c)
    ensures Advance(i, w, Rechecking(c)) == Rechecked(c, w.dispatch(c))
    ensures Ask(h, i, Rechecked(c, w.dispatch(c))) ==
      Emit(RECHECK, CriterionName(i, c) + ":" + ScoreText(w.dispatch(c)))
    ensures w.dispatch(c) == PASS ==> Advance(i, w, Rechecked(c, w.dispatch(c))) == NextRecheck(i, c + 1)
  {}

  lemma RecheckPair(h: Digest, i: Intent, w: World, c: nat)
    requires c < Size(i) && c <= FirstDrifted(i, w) && VolatileAt(i)(c)
    requires Follows(h, i, w, Advance(i, w, Rechecked(c, w.dispatch(c))),
                     RecheckPairs(i, w, c + 1, Through(FirstDrifted(i, w), Size(i))) + DriftWord(h, i, w),
                     DriftEnd(i, w))
    ensures Follows(h, i, w, Rechecking(c),
                    RecheckPairs(i, w, c, Through(FirstDrifted(i, w), Size(i))) + DriftWord(h, i, w), DriftEnd(i, w))
  {
    hide Say, Follows, FirstDrifted, DriftWord, DriftEnd, Ask, Advance, ScoreText, CriterionName;
    var n, end := Size(i), DriftEnd(i, w);
    var to := Through(FirstDrifted(i, w), n);
    RecheckStep(h, i, w, c);
    var tail := RecheckPairs(i, w, c + 1, to) + DriftWord(h, i, w);
    var e := Emit(RECHECK, CriterionName(i, c) + ":" + ScoreText(w.dispatch(c)));
    Step(h, i, w, Rechecked(c, w.dispatch(c)), e, tail, end);
    Step(h, i, w, Rechecking(c), AskDispatch(c), [e] + tail, end);
    Regroup(AskDispatch(c), e, RecheckPairs(i, w, c + 1, to), DriftWord(h, i, w));
  }

  // ---------------------------------------------------- scoring

  function FailEnd(i: Intent, w: World): Pc {
    var u := FirstUnscored(i, w);
    if u < Size(i) then Done(FAILED, Say(Unscored) + CriterionName(i, u))
    else if FailedNames(i, w, 0) != [] then Done(FAILED, Join(FailedNames(i, w, 0), ","))
    else DriftEnd(i, w)
  }

  lemma UnscoredFollows(h: Digest, i: Intent, w: World)
    requires FirstUnscored(i, w) < Size(i)
    ensures Follows(h, i, w, Unscorable(FirstUnscored(i, w)), FailWord(h, i, w), FailEnd(i, w))
  {
    hide Say, Follows, FirstUnscored;
    var u := FirstUnscored(i, w);
    var reason := Say(Unscored) + CriterionName(i, u);
    RefusalFollows(h, i, w, FAILED, reason, reason);
    Step(h, i, w, Unscorable(u), Emit(UNEVALUABLE, CriterionName(i, u)), [EmitFinal(FAILED, reason)], FailEnd(i, w));
    assert FailWord(h, i, w) == [Emit(UNEVALUABLE, CriterionName(i, u))] + [EmitFinal(FAILED, reason)];
  }

  lemma AllScored(h: Digest, i: Intent, w: World)
    requires FirstUnscored(i, w) == Size(i)
    ensures Follows(h, i, w, NextScore(i, Size(i), FailedNames(i, w, 0)), FailWord(h, i, w), FailEnd(i, w))
  {
    hide Say, Follows, FirstUnscored, NextRecheck, FailedNames, RecheckPairs, DriftWord, DriftEnd, Join, FirstDrifted;
    var reason := Join(FailedNames(i, w, 0), ",");
    if FailedNames(i, w, 0) != [] {
      RefusalFollows(h, i, w, FAILED, reason, reason);
    } else {
      RecheckFollows(h, i, w, 0);
    }
  }

  lemma ScoreStep(h: Digest, i: Intent, w: World, k: nat, failed: seq<string>)
    requires k < Size(i)
    ensures NextScore(i, k, failed) == Scoring(k, failed)
    ensures Ask(h, i, Scoring(k, failed)) == AskDeclaration(k)
    ensures Advance(i, w, Scoring(k, failed)) == Scored(k, failed, w.declaration(k))
    ensures Ask(h, i, Scored(k, failed, w.declaration(k))) ==
            Emit(SCORED, CriterionName(i, k) + ":" + ScoreText(w.declaration(k)))
    ensures var next := Advance(i, w, Scored(k, failed, w.declaration(k)));
      if w.declaration(k) == PASS then next == NextScore(i, k + 1, failed)
      else if w.declaration(k) == FAIL then next == NextScore(i, k + 1, failed + [CriterionName(i, k)])
      else next == Unscorable(k)
  {
    hide Say, First, Join;
  }

  lemma ScorePair(h: Digest, i: Intent, w: World, k: nat, failed: seq<string>, to: nat, word: seq<Request>, end: Pc)
    requires k < to <= Size(i)
    requires Follows(h, i, w, Advance(i, w, Scored(k, failed, w.declaration(k))), ScorePairs(i, w, k + 1, to) + word,
                     end)
    ensures Follows(h, i, w, Scoring(k, failed), ScorePairs(i, w, k, to) + word, end)
  {
    hide Say, Follows, Ask, Advance, NextScore;
    ScoreStep(h, i, w, k, failed);
    var e := Emit(SCORED, CriterionName(i, k) + ":" + ScoreText(w.declaration(k)));
    var tail := ScorePairs(i, w, k + 1, to) + word;
    Step(h, i, w, Scored(k, failed, w.declaration(k)), e, tail, end);
    Step(h, i, w, Scoring(k, failed), AskDeclaration(k), [e] + tail, end);
    Regroup(AskDeclaration(k), e, ScorePairs(i, w, k + 1, to), word);
  }

  /** From the scoring of criterion `k` on, with the names failed so far, the
      program follows the rest of the word. */
  ghost predicate ScoresFrom(h: Digest, i: Intent, w: World, k: nat, failed: seq<string>)
    requires k <= FirstUnscored(i, w)
  {
    Follows(h, i, w, NextScore(i, k, failed),
            ScorePairs(i, w, k, Through(FirstUnscored(i, w), Size(i))) + FailWord(h, i, w), FailEnd(i, w))
  }

  lemma {:induction false} ScoreFollows(h: Digest, i: Intent, w: World, k: nat, failed: seq<string>)
    requires k <= FirstUnscored(i, w)
    requires SoFar(i, w, k, failed)
    ensures ScoresFrom(h, i, w, k, failed)
    decreases Size(i) - k
  {
    hide Say, ScoresFrom, SoFar, FirstUnscored;
    var u := FirstUnscored(i, w);
    if k == Size(i) {
      ScoresEnd(h, i, w, failed);
    } else if k == u {
      ScoresStop(h, i, w, failed);
    } else {
      FailedStep(i, w, k, failed);
      ScoreFollows(h, i, w, k + 1, Failures(i, w, k, failed));
      ScoresNext(h, i, w, k, failed);
    }
  }

  /** The names failed so far, with those still to fail, are all of them. */
  ghost predicate SoFar(i: Intent, w: World, k: nat, failed: seq<string>) {
    k <= Size(i) && failed + FailedNames(i, w, k) == FailedNames(i, w, 0)
  }

  /** The failed names after criterion `k` is scored. */
  function Failures(i: Intent, w: World, k: nat, failed: seq<string>): seq<string> {
    if w.declaration(k) == FAIL then failed + [CriterionName(i, k)] else failed
  }

  lemma ScoresEnd(h: Digest, i: Intent, w: World, failed: seq<string>)
    requires FirstUnscored(i, w) == Size(i) && SoFar(i, w, Size(i), failed)
    ensures ScoresFrom(h, i, w, Size(i), failed)
  {
    hide Say, Follows, FirstUnscored, FailWord, FailEnd, NextScore, ScorePairs, FailedNames;
    NoneLeft(i, w, failed);
    NoPairs(i, w, Size(i), FailWord(h, i, w));
    AllScored(h, i, w);
  }

  lemma ScoresStop(h: Digest, i: Intent, w: World, failed: seq<string>)
    requires FirstUnscored(i, w) < Size(i)
    ensures ScoresFrom(h, i, w, FirstUnscored(i, w), failed)
  {
    hide Say, Follows, FirstUnscored, FailWord, FailEnd, NextScore, ScorePairs, Advance;
    UnscoredStep(i, w, failed);
    UnscoredFollows(h, i, w);
    LastScore(h, i, w, FirstUnscored(i, w), failed, FailWord(h, i, w), FailEnd(i, w));
  }

  lemma LastScore(h: Digest, i: Intent, w: World, u: nat, failed: seq<string>, word: seq<Request>, end: Pc)
    requires u < Size(i) && Advance(i, w, Scored(u, failed, w.declaration(u))) == Unscorable(u)
    requires Follows(h, i, w, Unscorable(u), word, end)
    ensures Follows(h, i, w, NextScore(i, u, failed), ScorePairs(i, w, u, u + 1) + word, end)
  {
    hide Say, Follows, NextScore, ScorePairs, Advance;
    NoPairs(i, w, u + 1, word);
    ScoreStep(h, i, w, u, failed);
    ScorePair(h, i, w, u, failed, u + 1, word, end);
  }

  lemma UnscoredStep(i: Intent, w: World, failed: seq<string>)
    requires FirstUnscored(i, w) < Size(i)
    ensures var u := FirstUnscored(i, w);
      Advance(i, w, Scored(u, failed, w.declaration(u))) == Unscorable(u)
  {
    hide Say, FirstUnscored;
    UnscoredAt(i, w);
  }

  lemma ScoresNext(h: Digest, i: Intent, w: World, k: nat, failed: seq<string>)
    requires k < FirstUnscored(i, w)
    requires ScoresFrom(h, i, w, k + 1, Failures(i, w, k, failed))
    ensures ScoresFrom(h, i, w, k, failed)
  {
    hide Say, Follows, FirstUnscored, FailWord, FailEnd, Ask, Advance, NextScore, ScorePairs, CriterionName;
    UnscoredAt(i, w);
    ScoreStep(h, i, w, k, failed);
    ScorePair(h, i, w, k, failed, Through(FirstUnscored(i, w), Size(i)), FailWord(h, i, w), FailEnd(i, w));
  }

  lemma NoneLeft(i: Intent, w: World, failed: seq<string>)
    ensures failed + FailedNames(i, w, Size(i)) == failed
  {}

  lemma FailedStep(i: Intent, w: World, k: nat, failed: seq<string>)
    requires k < Size(i) && SoFar(i, w, k, failed)
    ensures SoFar(i, w, k + 1, Failures(i, w, k, failed))
  {
    hide Say, CriterionName;
    var tail := FailedNames(i, w, k + 1);
    Assoc(failed, [CriterionName(i, k)], tail);
    assert [] + tail == tail;
  }

  lemma NoPairs(i: Intent, w: World, k: nat, word: seq<Request>)
    requires k <= Size(i)
    ensures ScorePairs(i, w, k, k) + word == word
  {}

  // ---------------------------------------------------- the whole run

  function Refusal(row: Row): Pc { Refusing(row.kind, row.detail, row.reason) }

  function End(row: Row): Pc { Done(TerminalOf(row.kind), row.reason) }

  lemma Conditions(i: Intent, w: World)
    ensures Applies(i, w, 0) <==> i.key == ""
    ensures Applies(i, w, 1) <==> i.resolution.revokedRef != ""
    ensures Applies(i, w, 2) <==> !i.resolution.attested
    ensures Applies(i, w, 3) <==> w.first.Some?
    ensures Applies(i, w, 4) <==> i.spec.posture != "enforce" && i.spec.posture != "shadow"
    ensures Applies(i, w, 5) <==> i.spec.humanJudgment != []
    ensures Applies(i, w, 6) <==> Size(i) == 0
    ensures Applies(i, w, 7) <==> FirstMisspelled(i) < Size(i)
    ensures Applies(i, w, 8) <==> FirstUnscored(i, w) < Size(i)
    ensures Applies(i, w, 9) <==> FailedNames(i, w, 0) != []
    ensures Applies(i, w, 10) <==> FirstDrifted(i, w) < Size(i)
    ensures Applies(i, w, 11) <==> w.edge.Some?
    ensures Applies(i, w, 12) <==> i.spec.posture == "shadow"
    ensures Applies(i, w, 13) <==> !w.granted
  {
    hide Say, FirstUnscored, FirstDrifted, FirstMisspelled, FailedNames;
  }

  /** No row below `r` applies; `r` does, unless it is past the one that decides. */
  lemma NotYet(i: Intent, w: World, r: nat)
    requires r <= Decision(i, w)
    ensures r < Decision(i, w) ==> !Applies(i, w, r)
    ensures r == Decision(i, w) ==> Applies(i, w, r)
  {
    hide Say, Applies;
  }

  /** The checks before scoring are the first eight rows of the table. */
  lemma CheckedAtDeclaration(h: Digest, i: Intent, w: World)
    ensures var r := Decision(i, w);
      AfterDeclared(i) == if r < 3 then Refusal(RowAt(h, i, w, r)) else FirstCheck
  {
    hide Say, Applies, Decision, AfterDeclared, RowAt;
    Conditions(i, w);
    DeclarationRows(h, i, w);
    NotYet(i, w, 0);
    if Decision(i, w) > 0 {
      NotYet(i, w, 1);
      if Decision(i, w) > 1 {
        NotYet(i, w, 2);
      }
    }
  }

  lemma DeclarationRows(h: Digest, i: Intent, w: World)
    ensures i.key == "" ==> AfterDeclared(i) == Refusal(RowAt(h, i, w, 0))
    ensures i.key != "" && i.resolution.revokedRef != "" ==> AfterDeclared(i) == Refusal(RowAt(h, i, w, 1))
    ensures i.key != "" && i.resolution.revokedRef == "" && !i.resolution.attested ==>
      AfterDeclared(i) == Refusal(RowAt(h, i, w, 2))
    ensures i.key != "" && i.resolution.revokedRef == "" && i.resolution.attested ==> AfterDeclared(i) == FirstCheck
  {}

  lemma CheckedAtAdmission(h: Digest, i: Intent, w: World)
    requires Decision(i, w) > 2
    ensures var r := Decision(i, w);
      Advance(i, w, FirstCheck) == if r < SCORING_ROW then Refusal(RowAt(h, i, w, r)) else Resolving
  {
    hide Say, Applies, Decision, AfterAdmission, RowAt, Advance, FirstMisspelled;
    var r := Decision(i, w);
    Conditions(i, w);
    FirstRow(h, i, w);
    NotYet(i, w, 3);
    if r > 3 {
      NotYet(i, w, 4);
      AdmissionRows(h, i, w);
      if r > 4 {
        NotYet(i, w, 5);
        if r > 5 {
          NotYet(i, w, 6);
          if r > 6 {
            NotYet(i, w, 7);
          }
        }
      }
    }
  }

  lemma FirstRow(h: Digest, i: Intent, w: World)
    ensures Advance(i, w, FirstCheck) == if w.first.Some? then Refusal(RowAt(h, i, w, 3)) else AfterAdmission(i)
  {
    hide Say, AfterAdmission;
  }

  predicate KnownPosture(i: Intent) { i.spec.posture == "enforce" || i.spec.posture == "shadow" }

  lemma AdmissionRows(h: Digest, i: Intent, w: World)
    ensures !KnownPosture(i) ==> AfterAdmission(i) == Refusal(RowAt(h, i, w, 4))
    ensures KnownPosture(i) && i.spec.humanJudgment != [] ==> AfterAdmission(i) == Refusal(RowAt(h, i, w, 5))
    ensures KnownPosture(i) && i.spec.humanJudgment == [] && Size(i) == 0 ==>
      AfterAdmission(i) == Refusal(RowAt(h, i, w, 6))
    ensures KnownPosture(i) && i.spec.humanJudgment == [] && Size(i) != 0 ==>
      AfterAdmission(i) == if FirstMisspelled(i) < Size(i) then Refusal(RowAt(h, i, w, 7)) else Resolving
  {
    hide *;
    if !KnownPosture(i) || i.spec.humanJudgment != [] {
      PostureRows(h, i, w);
    } else {
      CriteriaRows(h, i, w);
    }
  }

  lemma PostureRows(h: Digest, i: Intent, w: World)
    ensures !KnownPosture(i) ==> AfterAdmission(i) == Refusal(RowAt(h, i, w, 4))
    ensures KnownPosture(i) && i.spec.humanJudgment != [] ==> AfterAdmission(i) == Refusal(RowAt(h, i, w, 5))
  {
    hide Say, First, Misspelled;
  }

  lemma CriteriaRows(h: Digest, i: Intent, w: World)
    requires KnownPosture(i) && i.spec.humanJudgment == []
    ensures Size(i) == 0 ==> AfterAdmission(i) == Refusal(RowAt(h, i, w, 6))
    ensures Size(i) != 0 ==>
      AfterAdmission(i) == if FirstMisspelled(i) < Size(i) then Refusal(RowAt(h, i, w, 7)) else Resolving
  {
    hide Say, First, Misspelled;
  }

  /** The rest of the table, once no check applies. */
  lemma ScoredRow(h: Digest, i: Intent, w: World)
    requires Decision(i, w) >= SCORING_ROW
    ensures FailEnd(i, w) == End(Verdict(h, i, w))
  {
    hide Say, FirstUnscored, FirstDrifted, FirstMisspelled, FailedNames, Decision, DriftEnd, RowAt, Applies, FailEnd;
    var r := Decision(i, w);
    Conditions(i, w);
    ScoreRows(h, i, w);
    NotYet(i, w, 8);
    if r > 8 {
      NotYet(i, w, 9);
      if r > 9 {
        DriftRow(h, i, w);
      }
    }
  }

  lemma ScoreRows(h: Digest, i: Intent, w: World)
    ensures FirstUnscored(i, w) < Size(i) ==> FailEnd(i, w) == End(RowAt(h, i, w, 8))
    ensures FirstUnscored(i, w) == Size(i) && FailedNames(i, w, 0) != [] ==> FailEnd(i, w) == End(RowAt(h, i, w, 9))
    ensures FirstUnscored(i, w) == Size(i) && FailedNames(i, w, 0) == [] ==> FailEnd(i, w) == DriftEnd(i, w)
  {
    hide Say, FirstUnscored, FirstDrifted, FirstMisspelled, FailedNames, Join, DriftEnd;
  }

  lemma DriftRow(h: Digest, i: Intent, w: World)
    requires Decision(i, w) >= 10
    ensures DriftEnd(i, w) == End(Verdict(h, i, w))
  {
    hide Say, FirstUnscored, FirstMisspelled, FirstDrifted, FailedNames, Decision, DriftEnd, RowAt, Applies;
    var r := Decision(i, w);
    Conditions(i, w);
    EdgeRows(h, i, w);
    NotYet(i, w, 10);
    if r > 10 {
      NotYet(i, w, 11);
      if r > 11 {
        NotYet(i, w, 12);
        if r > 12 {
          NotYet(i, w, 13);
        }
      }
    }
  }

  lemma EdgeRows(h: Digest, i: Intent, w: World)
    ensures FirstDrifted(i, w) < Size(i) ==> DriftEnd(i, w) == End(RowAt(h, i, w, 10))
    ensures FirstDrifted(i, w) == Size(i) ==> DriftEnd(i, w) == EdgeEnd(w, i)
    ensures w.edge.Some? ==> EdgeEnd(w, i) == End(RowAt(h, i, w, 11))
    ensures w.edge.None? && i.spec.posture == "shadow" ==> EdgeEnd(w, i) == End(RowAt(h, i, w, 12))
    ensures w.edge.None? && i.spec.posture != "shadow" ==>
      EdgeEnd(w, i) == if w.granted then End(RowAt(h, i, w, 14)) else End(RowAt(h, i, w, 13))
  {
    hide Say, FirstUnscored, FirstMisspelled, FirstDrifted, FailedNames;
    hide Say, RowAt, EdgeEnd;
    GrantRows(h, i, w);
    DriftedRow(h, i, w);
  }

  lemma DriftedRow(h: Digest, i: Intent, w: World)
    ensures FirstDrifted(i, w) < Size(i) ==> DriftEnd(i, w) == End(RowAt(h, i, w, 10))
  {
    hide Say, FirstUnscored, FirstMisspelled, FirstDrifted, FailedNames, EdgeEnd;
  }

  lemma GrantRows(h: Digest, i: Intent, w: World)
    ensures w.edge.Some? ==> EdgeEnd(w, i) == End(RowAt(h, i, w, 11))
    ensures w.edge.None? && i.spec.posture == "shadow" ==> EdgeEnd(w, i) == End(RowAt(h, i, w, 12))
    ensures w.edge.None? && i.spec.posture != "shadow" ==>
      EdgeEnd(w, i) == if w.granted then End(RowAt(h, i, w, 14)) else End(RowAt(h, i, w, 13))
  {
    hide Say, FirstUnscored, FirstMisspelled, FirstDrifted, FailedNames;
  }

  lemma EndOfRefusal(h: Digest, i: Intent, w: World, r: nat)
    requires r < SCORING_ROW
    ensures var row := RowAt(h, i, w, r); EndOf(row) == EmitFinal(row.kind, row.detail)
  {
    hide Say, FirstMisspelled;
  }

  lemma RefusedFollows(h: Digest, i: Intent, w: World)
    requires Decision(i, w) < SCORING_ROW
    ensures Follows(h, i, w, Begin, Word(h, i, w), End(Verdict(h, i, w)))
  {
    hide Say, Follows, RowAt, Decision, AfterDeclared, AfterAdmission, ScoreWord, EndOf;
    var row := Verdict(h, i, w);
    CheckedAtDeclaration(h, i, w);
    RefusalFollows(h, i, w, row.kind, row.detail, row.reason);
    EndOfRefusal(h, i, w, Decision(i, w));
    var first, last := Emit(DECLARED, Id(h, i)), EmitFinal(row.kind, row.detail);
    if Decision(i, w) > 2 {
      CheckedAtAdmission(h, i, w);
      Step(h, i, w, FirstCheck, AskRevoked, [last], End(row));
      Step(h, i, w, Begin, first, [AskRevoked] + [last], End(row));
      Assoc([first], [AskRevoked], [last]);
    } else {
      Step(h, i, w, Begin, first, [last], End(row));
      assert [first] + [] == [first];
    }
  }

  /** Five silent or uneventful steps lead from the declaration to scoring. */
  lemma ScoredFollows(h: Digest, i: Intent, w: World, scores: seq<Request>, end: Pc)
    requires AfterDeclared(i) == FirstCheck && Advance(i, w, FirstCheck) == Resolving
    requires Follows(h, i, w, NextScore(i, 0, []), scores, end)
    ensures Follows(h, i, w, Begin,
      [Emit(DECLARED, Id(h, i))] + [AskRevoked]
        + ([Emit(RESOLVING, ""), Emit(ACTIVE, ""), Emit(VERIFYING, "")] + scores), end)
  {
    hide Say, Follows, AfterDeclared, AfterAdmission, NextScore;
    var w1 := [Emit(VERIFYING, "")] + scores;
    Step(h, i, w, Verifying, Emit(VERIFYING, ""), scores, end);
    var w2 := [Emit(ACTIVE, "")] + w1;
    Step(h, i, w, Activating, Emit(ACTIVE, ""), w1, end);
    var w3 := [Emit(RESOLVING, "")] + w2;
    Step(h, i, w, Resolving, Emit(RESOLVING, ""), w2, end);
    Step(h, i, w, FirstCheck, AskRevoked, w3, end);
    Step(h, i, w, Begin, Emit(DECLARED, Id(h, i)), [AskRevoked] + w3, end);
    Five(Emit(DECLARED, Id(h, i)), AskRevoked, Emit(RESOLVING, ""), Emit(ACTIVE, ""), Emit(VERIFYING, ""), scores);
  }

  lemma Five<T>(a: T, b: T, c: T, d: T, e: T, rest: seq<T>)
    ensures [a] + ([b] + ([c] + ([d] + ([e] + rest)))) == [a] + [b] + ([c, d, e] + rest)
  {}

  lemma ScoringFollows(h: Digest, i: Intent, w: World)
    ensures Follows(h, i, w, NextScore(i, 0, []), ScoreWord(h, i, w), FailEnd(i, w))
  {
    hide Say, Follows, FirstUnscored, FailWord, FailEnd, NextScore, FailedNames;
    assert [] + FailedNames(i, w, 0) == FailedNames(i, w, 0);
    ScoreFollows(h, i, w, 0, []);
  }

  /** Refinement: whatever its environment answers, one call of Authorize asks
      exactly the word of the grammar, in order, and ends as the first row of
      the table that applies says. */
  lemma FollowsTable(h: Digest, job: Job, w: World)
    ensures var s, row := Outcome(h, job, w), Verdict(h, job.intent, w);
      s.trace == Word(h, job.intent, w) && s.pc == Done(TerminalOf(row.kind), row.reason)
  {
    hide Say, Finish, RowAt, Decision, Rest, FailEnd, ScoreWord;
    var i := job.intent;
    FinishRest(h, job, w, START);
    if Decision(i, w) < SCORING_ROW {
      RefusedFollows(h, i, w);
    } else {
      CheckedAtDeclaration(h, i, w);
      CheckedAtAdmission(h, i, w);
      ScoringFollows(h, i, w);
      ScoredFollows(h, i, w, ScoreWord(h, i, w), FailEnd(i, w));
      ScoredRow(h, i, w);
    }
    assert [] + Word(h, i, w) == Word(h, i, w);
  }
}
