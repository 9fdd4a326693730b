// What the table and the grammar say about grants, scorer calls, records and
// the lifecycle graph.

module GateTheorems {
  import opened Text
  import opened Hashing
  import opened Intents
  import opened Lifecycle
  import opened FeedRecord
  import opened Gate
  import opened GateSpec

  // ---------------------------------------------------- when a run is granted

  predicate AllKnown(i: Intent) { forall k :: 0 <= k < Size(i) ==> KnownVolatility(i.spec.criteria[k]) }

  predicate AllPass(i: Intent, w: World) { forall k: nat :: k < Size(i) ==> w.declaration(k) == PASS }

  predicate AllPassAgain(i: Intent, w: World) {
    forall k: nat :: k < Size(i) && IsVolatile(i.spec.criteria[k]) ==> w.dispatch(k) == PASS
  }

  /** Every condition of a grant, the reservation included. */
  predicate Deserved(i: Intent, w: World) {
    && i.key != "" && i.resolution.revokedRef == "" && i.resolution.attested
    && w.first.None? && i.spec.posture == "enforce"
    && i.spec.humanJudgment == [] && i.spec.criteria != [] && AllKnown(i)
    && AllPass(i, w) && AllPassAgain(i, w)
    && w.edge.None? && w.granted
  }

  lemma {:induction false} NoneFailed(i: Intent, w: World, from: nat)
    requires from <= Size(i)
    ensures FailedNames(i, w, from) == [] <==> forall k: nat :: from <= k < Size(i) ==> w.declaration(k) != FAIL
    decreases Size(i) - from
  {
    if from < Size(i) {
      NoneFailed(i, w, from + 1);
    }
  }

  lemma MisspelledAt(i: Intent)
    ensures var bad := FirstMisspelled(i);
      && (forall k :: 0 <= k < bad ==> KnownVolatility(i.spec.criteria[k]))
      && (bad < Size(i) ==> !KnownVolatility(i.spec.criteria[bad]))
  {
    forall k: nat | k < FirstMisspelled(i)
      ensures KnownVolatility(i.spec.criteria[k])
    {
      assert !Misspelled(i)(k);
    }
  }

  lemma Passing(i: Intent, w: World)
    ensures FirstMisspelled(i) == Size(i) <==> AllKnown(i)
    ensures FirstUnscored(i, w) == Size(i) && FailedNames(i, w, 0) == [] <==> AllPass(i, w)
    ensures FirstDrifted(i, w) == Size(i) <==> AllPassAgain(i, w)
  {
    hide FirstUnscored, FirstDrifted, FirstMisspelled, FailedNames;
    NoneFailed(i, w, 0);
    UnscoredAt(i, w);
    DriftedAt(i, w);
    MisspelledAt(i);
  }

  /** ACHIEVED is reached exactly when every condition holds: nothing else
      grants, and nothing else refuses. */
  lemma AchievedExactly(h: Digest, job: Job, w: World)
    ensures Outcome(h, job, w).pc.terminal == ACHIEVED <==> Deserved(job.intent, w)
  {
    hide Outcome, FirstUnscored, FirstDrifted, FirstMisspelled, FailedNames, Decision, Applies, RowAt;
    var i := job.intent;
    FollowsTable(h, job, w);
    Passing(i, w);
    Conditions(i, w);
    LastRow(h, i, w);
    if Deserved(i, w) {
      assert forall r: nat :: r < 14 ==> !Applies(i, w, r) by { NoneApplies(i, w); }
      assert Decision(i, w) == 14;
    }
  }

  lemma NoneApplies(i: Intent, w: World)
    requires Deserved(i, w)
    ensures forall r: nat :: r < 14 ==> !Applies(i, w, r)
  {
    hide FirstUnscored, FirstDrifted, FirstMisspelled, FailedNames;
    Passing(i, w);
  }

  lemma LastRow(h: Digest, i: Intent, w: World)
    ensures TerminalOf(Verdict(h, i, w).kind) == ACHIEVED <==> Decision(i, w) == 14
  {
    hide FirstUnscored, FirstDrifted, FirstMisspelled, FailedNames, Decision, Say, Join;
  }

  // ---------------------------------------------------- scorer calls

  ghost function Calls(word: seq<Request>, r: Request): nat { multiset(word)[r] }

  lemma NoCalls(r: Request)
    ensures Calls([], r) == 0
  {}

  lemma PairCalls(a: Request, b: Request, rest: seq<Request>, r: Request)
    ensures Calls([a, b] + rest, r) == Calls(rest, r) + (if a == r then 1 else 0) + (if b == r then 1 else 0)
  {
    assert multiset([a, b]) == multiset{a, b};
  }

  lemma {:induction false} DeclarationCalls(i: Intent, w: World, from: nat, to: nat, k: nat)
    requires from <= to <= Size(i)
    ensures Calls(ScorePairs(i, w, from, to), AskDeclaration(k)) == if from <= k < to then 1 else 0
    ensures Calls(ScorePairs(i, w, from, to), AskDispatch(k)) == 0
    decreases (to as int) - (from as int)
  {
    hide ScoreText, CriterionName, Calls;
    if from == to {
      NoCalls(AskDeclaration(k));
      NoCalls(AskDispatch(k));
    } else {
      var e := Emit(SCORED, CriterionName(i, from) + ":" + ScoreText(w.declaration(from)));
      DeclarationCalls(i, w, from + 1, to, k);
      PairCalls(AskDeclaration(from), e, ScorePairs(i, w, from + 1, to), AskDeclaration(k));
      PairCalls(AskDeclaration(from), e, ScorePairs(i, w, from + 1, to), AskDispatch(k));
    }
  }

  lemma {:induction false} DispatchCalls(i: Intent, w: World, from: nat, to: nat, k: nat)
    requires from <= to <= Size(i)
    ensures Calls(RecheckPairs(i, w, from, to), AskDispatch(k)) ==
            if from <= k < to && IsVolatile(i.spec.criteria[k]) then 1 else 0
    ensures Calls(RecheckPairs(i, w, from, to), AskDeclaration(k)) == 0
    decreases (to as int) - (from as int)
  {
    hide ScoreText, CriterionName, Calls;
    if from == to {
      NoCalls(AskDeclaration(k));
      NoCalls(AskDispatch(k));
    } else {
      var e := Emit(RECHECK, CriterionName(i, from) + ":" + ScoreText(w.dispatch(from)));
      var rest := RecheckPairs(i, w, from + 1, to);
      DispatchCalls(i, w, from + 1, to, k);
      PairCalls(AskDispatch(from), e, rest, AskDeclaration(k));
      PairCalls(AskDispatch(from), e, rest, AskDispatch(k));
      assert [] + rest == rest;
    }
  }

  /** A refusal before scoring calls the scorer for nothing. */
  lemma NoScoringOnRefusal(h: Digest, job: Job, w: World, r: Request)
    requires Decision(job.intent, w) < SCORING_ROW && (r.AskDeclaration? || r.AskDispatch?)
    ensures r !in Outcome(h, job, w).trace
  {
    hide Outcome, Decision, RowAt;
    FollowsTable(h, job, w);
  }

  /** Every grant and every shadow scored each criterion exactly once at
      declaration and each volatile one exactly once more at the edge; stable
      ones are never rescored. */
  lemma GrantCalls(h: Digest, job: Job, w: World, k: nat)
    requires Outcome(h, job, w).pc.terminal in {ACHIEVED, SHADOW_RECORDED}
    ensures var s, i := Outcome(h, job, w), job.intent;
      && Calls(s.trace, AskDeclaration(k)) == (if k < Size(i) then 1 else 0)
      && Calls(s.trace, AskDispatch(k)) == (if k < Size(i) && IsVolatile(i.spec.criteria[k]) then 1 else 0)
  {
    hide Outcome, ScorePairs, RecheckPairs, EdgeWord, Word, Calls, Verdict;
    var i := job.intent;
    FollowsTable(h, job, w);
    GrantWord(h, i, w);
    DeclarationCalls(i, w, 0, Size(i), k);
    DispatchCalls(i, w, 0, Size(i), k);
    EdgeCalls(h, i, w, k);
    var scores, rechecks, edge := ScorePairs(i, w, 0, Size(i)), RecheckPairs(i, w, 0, Size(i)), EdgeWord(h, i, w);
    CallsInParts(Opening(h, i), scores, rechecks, edge, AskDeclaration(k));
    CallsInParts(Opening(h, i), scores, rechecks, edge, AskDispatch(k));
    OpeningCalls(h, i, k);
  }

  function Opening(h: Digest, i: Intent): seq<Request> {
    [Emit(DECLARED, Id(h, i)), AskRevoked, Emit(RESOLVING, ""), Emit(ACTIVE, ""), Emit(VERIFYING, "")]
  }

  lemma OpeningCalls(h: Digest, i: Intent, k: nat)
    ensures Calls(Opening(h, i), AskDeclaration(k)) == Calls(Opening(h, i), AskDispatch(k)) == 0
  {
    hide Id;
  }

  lemma CallsInParts(a: seq<Request>, b: seq<Request>, c: seq<Request>, d: seq<Request>, r: Request)
    ensures Calls(a + (b + (c + d)), r) == Calls(a, r) + Calls(b, r) + Calls(c, r) + Calls(d, r)
  {}

  lemma PastRechecks(h: Digest, i: Intent, w: World)
    requires TerminalOf(Verdict(h, i, w).kind) in {ACHIEVED, SHADOW_RECORDED}
    ensures Decision(i, w) > 11
  {
    hide FirstUnscored, FirstDrifted, FirstMisspelled, FailedNames, Decision, Say, Join;
  }

  lemma EdgeCalls(h: Digest, i: Intent, w: World, k: nat)
    ensures Calls(EdgeWord(h, i, w), AskDeclaration(k)) == Calls(EdgeWord(h, i, w), AskDispatch(k)) == 0
  {
    hide Say;
  }

  lemma GrantWord(h: Digest, i: Intent, w: World)
    requires TerminalOf(Verdict(h, i, w).kind) in {ACHIEVED, SHADOW_RECORDED}
    ensures Word(h, i, w) == Opening(h, i) +
            (ScorePairs(i, w, 0, Size(i)) + (RecheckPairs(i, w, 0, Size(i)) + EdgeWord(h, i, w)))
  {
    hide FirstUnscored, FirstDrifted, FirstMisspelled, FailedNames, ScorePairs, RecheckPairs, EdgeWord, Decision,
         Applies, RowAt, Verdict, Id;
    PastRechecks(h, i, w);
    Conditions(i, w);
    assert !Applies(i, w, 8) && !Applies(i, w, 9) && !Applies(i, w, 10);
    var scores := ScoreWord(h, i, w);
    assert scores == ScorePairs(i, w, 0, Size(i)) + (RecheckPairs(i, w, 0, Size(i)) + EdgeWord(h, i, w));
    hide ScoreWord;
    OpeningFirst(h, i, scores);
  }

  lemma OpeningFirst(h: Digest, i: Intent, rest: seq<Request>)
    ensures [Emit(DECLARED, Id(h, i))] + [AskRevoked] +
            ([Emit(RESOLVING, ""), Emit(ACTIVE, ""), Emit(VERIFYING, "")] + rest) == Opening(h, i) + rest
  {
    hide Id;
  }

  // ---------------------------------------------------- records are mirrors

  /** The records a list of requests leaves in the feed. */
  function MirrorsOf(h: Digest, job: Job, word: seq<Request>): seq<Record> {
    if word == [] then []
    else
      var before := MirrorsOf(h, job, word[..|word| - 1]);
      var r := word[|word| - 1];
      if Emits(r) then before + [Mirror(h, job, r, EventsOf(before))] else before
  }

  lemma NextMirrors(h: Digest, job: Job, w: World, s: Snap)
    requires ValidSnap(job, s) && s.recs == MirrorsOf(h, job, s.trace)
    ensures Next(h, job, w, s).recs == MirrorsOf(h, job, Next(h, job, w, s).trace)
  {
    hide Ask, Advance, Mirror, EventsOf;
    if !s.pc.Done? {
      var request := Ask(h, job.intent, s.pc);
      var word := s.trace + [request];
      assert word[..|word| - 1] == s.trace && word[|word| - 1] == request;
    }
  }

  lemma {:induction false} FinishMirrors(h: Digest, job: Job, w: World, s: Snap)
    requires ValidSnap(job, s) && s.recs == MirrorsOf(h, job, s.trace)
    ensures var r := Finish(h, job, w, s); r.recs == MirrorsOf(h, job, r.trace)
    decreases Stage(s.pc), Left(job.intent, s.pc)
  {
    hide Stage, Left, Ask, Advance, MirrorsOf, Next;
    if !s.pc.Done? {
      Decreases(h, job, w, s);
      NextMirrors(h, job, w, s);
      FinishMirrors(h, job, w, Next(h, job, w, s));
    }
  }

  /** The whole feed footprint of one call is the mirror of its word. */
  lemma RecordsFollowWord(h: Digest, job: Job, w: World)
    ensures Outcome(h, job, w).recs == MirrorsOf(h, job, Word(h, job.intent, w))
  {
    hide Finish, Word, MirrorsOf;
    FollowsTable(h, job, w);
    assert [] == MirrorsOf(h, job, []) by { EmptyWord(h, job); }
    FinishMirrors(h, job, w, START);
  }

  lemma EmptyWord(h: Digest, job: Job)
    ensures MirrorsOf(h, job, []) == []
  {}

  // ---------------------------------------------------- the lifecycle graph

  /** The lifecycle states among the emitted requests, in order. */
  function States(word: seq<Request>): seq<Kind> {
    if word == [] then []
    else
      var r := word[|word| - 1];
      States(word[..|word| - 1]) + (if Emits(r) && IsState(r.kind) then [r.kind] else [])
  }

  ghost predicate Path(ks: seq<Kind>) {
    && (ks != [] ==> ks[0] == DECLARED)
    && forall k :: 0 <= k < |ks| - 1 ==> IsValidTransition(ks[k], ks[k + 1])
  }

  /** The value of the `state` variable when the program is at `pc`. */
  function StateAt(pc: Pc): Kind {
    match pc
    case Begin => DECLARED
    case FirstCheck => DECLARED
    case Refusing(kind, _, _) => if kind == UNEVALUABLE || kind == REVOKED then DECLARED else VERIFYING
    case Resolving => DECLARED
    case Activating => RESOLVING
    case Verifying => ACTIVE
    case Done(_, _) => FAILED
    case _ => VERIFYING
  }

  /** The states logged so far form a path of the transition graph that ends
      in the current state. */
  ghost predicate PathInv(i: Intent, s: Snap) {
    && ValidPc(i, s.pc)
    && (s.pc.Begin? <==> States(s.trace) == [])
    && Path(States(s.trace))
    && (!s.pc.Begin? && !s.pc.Done? ==> States(s.trace)[|States(s.trace)| - 1] == StateAt(s.pc))
    && (s.pc.Refusing? ==> s.pc.kind in {UNEVALUABLE, REVOKED, FAILED, FAILED_AT_DISPATCH})
  }

  /** Every transition the program logs is an edge from its current state. */
  lemma TransitionValid(h: Digest, i: Intent, w: World, pc: Pc)
    requires ValidPc(i, pc) && !pc.Done?
    requires pc.Refusing? ==> pc.kind in {UNEVALUABLE, REVOKED, FAILED, FAILED_AT_DISPATCH}
    ensures var request, next := Ask(h, i, pc), Advance(i, w, pc);
      && (pc.Begin? ==> request.Emit? && request.kind == DECLARED)
      && (!pc.Begin? && Emits(request) && IsState(request.kind) ==> IsValidTransition(StateAt(pc), request.kind))
      && (!next.Done? ==>
           StateAt(next) == if Emits(request) && IsState(request.kind) then request.kind else StateAt(pc))
      && !next.Begin?
      && (next.Refusing? ==> next.kind in {UNEVALUABLE, REVOKED, FAILED, FAILED_AT_DISPATCH})
  {
    hide Ask, Advance, IsState, IsValidTransition, StateAt;
    AskedEdge(h, i, pc);
    NextKind(i, w, pc);
    NextState(h, i, w, pc);
  }

  lemma AskedEdge(h: Digest, i: Intent, pc: Pc)
    requires ValidPc(i, pc) && !pc.Done?
    requires pc.Refusing? ==> pc.kind in {UNEVALUABLE, REVOKED, FAILED, FAILED_AT_DISPATCH}
    ensures var request := Ask(h, i, pc);
      && (pc.Begin? ==> request.Emit? && request.kind == DECLARED)
      && (!pc.Begin? && Emits(request) && IsState(request.kind) ==> IsValidTransition(StateAt(pc), request.kind))
  {
    hide Say, Id, ScoreText;
  }

  lemma NextKind(i: Intent, w: World, pc: Pc)
    requires ValidPc(i, pc) && !pc.Done?
    ensures var next := Advance(i, w, pc);
      !next.Begin? && (next.Refusing? ==> next.kind in {UNEVALUABLE, REVOKED, FAILED, FAILED_AT_DISPATCH})
  {
    hide Say, First, Misspelled, Join, AfterDeclared, AfterAdmission;
    ChecksStayDeclared(i);
  }

  lemma NextState(h: Digest, i: Intent, w: World, pc: Pc)
    requires ValidPc(i, pc) && !pc.Done?
    requires pc.Refusing? ==> pc.kind in {UNEVALUABLE, REVOKED, FAILED, FAILED_AT_DISPATCH}
    ensures var request, next := Ask(h, i, pc), Advance(i, w, pc);
      !next.Done? ==>
        StateAt(next) == if Emits(request) && IsState(request.kind) then request.kind else StateAt(pc)
  {
    hide Say, First, Misspelled, Join, AfterDeclared, AfterAdmission, Id, ScoreText;
    ChecksStayDeclared(i);
  }

  lemma ChecksStayDeclared(i: Intent)
    ensures var pc := AfterDeclared(i); pc.FirstCheck? || (pc.Refusing? && pc.kind in {UNEVALUABLE, REVOKED})
    ensures var pc := AfterAdmission(i); pc.Resolving? || (pc.Refusing? && pc.kind == UNEVALUABLE)
  {
    hide Say, First, Misspelled;
  }

  lemma PathSnoc(ks: seq<Kind>, k: Kind)
    requires Path(ks)
    requires if ks == [] then k == DECLARED else IsValidTransition(ks[|ks| - 1], k)
    ensures Path(ks + [k])
  {}

  lemma StatesSnoc(word: seq<Request>, r: Request)
    ensures States(word + [r]) == States(word) + (if Emits(r) && IsState(r.kind) then [r.kind] else [])
  {
    assert (word + [r])[..|word|] == word;
  }

  lemma NextPath(h: Digest, job: Job, w: World, s: Snap)
    requires ValidSnap(job, s) && PathInv(job.intent, s)
    ensures PathInv(job.intent, Next(h, job, w, s))
  {
    hide Ask, Advance, NextRecord, Path, States;
    if !s.pc.Done? {
      var request := Ask(h, job.intent, s.pc);
      TransitionValid(h, job.intent, w, s.pc);
      StatesSnoc(s.trace, request);
      if Emits(request) && IsState(request.kind) {
        PathSnoc(States(s.trace), request.kind);
      } else {
        assert States(s.trace) + [] == States(s.trace);
      }
    }
  }

  lemma {:induction false} FinishPath(h: Digest, job: Job, w: World, s: Snap)
    requires ValidSnap(job, s) && PathInv(job.intent, s)
    ensures PathInv(job.intent, Finish(h, job, w, s))
    decreases Stage(s.pc), Left(job.intent, s.pc)
  {
    hide Stage, Left, Next, PathInv;
    if !s.pc.Done? {
      Decreases(h, job, w, s);
      NextPath(h, job, w, s);
      FinishPath(h, job, w, Next(h, job, w, s));
    }
  }

  lemma StateNames(k: Kind)
    ensures Name(k) == "DECLARED" <==> k == DECLARED
    ensures Name(k) == "RESOLVING" <==> k == RESOLVING
    ensures Name(k) == "ACTIVE" <==> k == ACTIVE
    ensures Name(k) == "VERIFYING" <==> k == VERIFYING
    ensures Name(k) == "ACHIEVED" <==> k == ACHIEVED
    ensures Name(k) == "FAILED" <==> k == FAILED
    ensures Name(k) == "FAILED_AT_DISPATCH" <==> k == FAILED_AT_DISPATCH
    ensures Name(k) == "SHADOW_RECORDED" <==> k == SHADOW_RECORDED
  {
    NameKey(k);
  }

  /** The graph, edge by edge: four states in a row, FAILED from all but the
      first, the other terminals from the last alone. */
  lemma GraphExactly(a: Kind, b: Kind)
    ensures IsValidTransition(a, b) <==>
      || (Name(a) == "DECLARED" && Name(b) == "RESOLVING")
      || (Name(a) == "RESOLVING" && (Name(b) == "ACTIVE" || Name(b) == "FAILED"))
      || (Name(a) == "ACTIVE" && (Name(b) == "VERIFYING" || Name(b) == "FAILED"))
      || (Name(a) == "VERIFYING"
          && ( || Name(b) == "ACHIEVED" || Name(b) == "FAILED" || Name(b) == "FAILED_AT_DISPATCH"
               || Name(b) == "SHADOW_RECORDED"))
  {
    hide Name;
    StateNames(a);
    StateNames(b);
  }

  /** A state ends an intent exactly when nothing leaves it. */
  lemma TerminalsEnd(a: Kind)
    requires IsState(a)
    ensures IsTerminal(a) <==> forall to: Kind :: !IsValidTransition(a, to)
  {
    assert IsValidTransition(DECLARED, RESOLVING) && IsValidTransition(RESOLVING, ACTIVE);
    assert IsValidTransition(ACTIVE, VERIFYING) && IsValidTransition(VERIFYING, ACHIEVED);
  }

  /** The lifecycle events of every call form a path of the transition graph. */
  lemma LifecyclePath(h: Digest, job: Job, w: World)
    ensures Path(States(Word(h, job.intent, w)))
  {
    hide Finish, Word;
    FollowsTable(h, job, w);
    FinishPath(h, job, w, START);
  }
}
