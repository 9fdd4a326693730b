// The authorization state machine of core/internal/gate/gate.go, as a program
// that asks its environment one thing at a time: append a record, score a
// criterion, consult the revocation signal, reserve the key.

module Gate {
  import opened Text
  import opened Hashing
  import opened Intents
  import opened Lifecycle
  import opened FeedRecord
  import Audit

  const PASS := 0
  const FAIL := 1
  const UNSCORED := 2

  /** `Score.String()`: every value outside the domain prints as unevaluable. */
  function ScoreText(s: int): string {
    if s == PASS then "PASS" else if s == FAIL then "FAIL" else "UNEVALUABLE"
  }

  /** The fixed part of every detail and reason the gate writes. */
  datatype Phrase =
    | AbsentKey | UnattestedSpec | InvalidPosture | HumanJudgment | EmptyCriteria | InvalidVolatility
    | NoKey | NoAttestation | NoPosture | NoHuman | NoCriteria | NoVolatility
    | Unscored | Drifted | RevokedBy | Collided

  function Say(p: Phrase): string {
    match p
    case AbsentKey => "absent-key"
    case UnattestedSpec => "unattested-spec:"
    case InvalidPosture => "invalid-posture:"
    case HumanJudgment => "human-judgment:"
    case EmptyCriteria => "empty-criteria:"
    case InvalidVolatility => "invalid-volatility:"
    case NoKey => "unevaluable:absent-key"
    case NoAttestation => "unevaluable:unattested-spec"
    case NoPosture => "unevaluable:invalid-posture"
    case NoHuman => "unevaluable:human-judgment:"
    case NoCriteria => "unevaluable:empty-criteria"
    case NoVolatility => "unevaluable:invalid-volatility:"
    case Unscored => "unevaluable:"
    case Drifted => "volatile-recheck:"
    case RevokedBy => "revoked:"
    case Collided => "idempotency-collision"
  }

  /** One call of Authorize: the intent and the gate's scorer identity. */
  datatype Job = Job(intent: Intent, scorerId: string)

  /** Every answer the environment gives one call. Each question is asked at
      most once, so these are all the behaviours of an arbitrary scorer, an
      arbitrary revocation checker and the shared reservation store. */
  datatype World = World(
    declaration: nat -> int, dispatch: nat -> int,
    first: Option<string>, edge: Option<string>, granted: bool)

  datatype Pc =
    | Begin
    | FirstCheck
    | Refusing(kind: Kind, detail: string, reason: string)
    | Resolving | Activating | Verifying
    | Scoring(k: nat, failed: seq<string>)
    | Scored(k: nat, failed: seq<string>, score: int)
    | Unscorable(k: nat)
    | Rechecking(k: nat)
    | Rechecked(k: nat, score: int)
    | Unchecked(k: nat)
    | EdgeCheck
    | EdgeRevoked(ref: string)
    | Shadowing
    | Reserving
    | Granting
    | Achieving
    | Done(terminal: Kind, reason: string)

  datatype Request =
    | Emit(kind: Kind, detail: string)
    | EmitFinal(kind: Kind, detail: string)
    | EmitTraced(kind: Kind)
    | AskDeclaration(k: nat)
    | AskDispatch(k: nat)
    | AskRevoked
    | AskReserve
    | Halt

  predicate Emits(r: Request) { r.Emit? || r.EmitFinal? || r.EmitTraced? }

  predicate IsVolatile(c: Criterion) { c.volatility == "volatile" }

  predicate KnownVolatility(c: Criterion) { c.volatility == "stable" || c.volatility == "volatile" }

  /** The first position from `k` on that satisfies `p`, or `n`. */
  function First(k: nat, n: nat, p: nat -> bool): (r: nat)
    requires k <= n
    ensures k <= r <= n && (forall j :: k <= j < r ==> !p(j)) && (r < n ==> p(r))
    decreases n - k
  {
    if k == n || p(k) then k else First(k + 1, n, p)
  }

  function VolatileAt(i: Intent): nat -> bool {
    (k: nat) => k < |i.spec.criteria| && IsVolatile(i.spec.criteria[k])
  }

  function Misspelled(i: Intent): nat -> bool {
    (k: nat) => k < |i.spec.criteria| && !KnownVolatility(i.spec.criteria[k])
  }

  predicate ValidPc(i: Intent, pc: Pc) {
    match pc
    case Scoring(k, _) => k < |i.spec.criteria|
    case Scored(k, _, _) => k < |i.spec.criteria|
    case Unscorable(k) => k < |i.spec.criteria|
    case Rechecking(k) => k < |i.spec.criteria|
    case Rechecked(k, _) => k < |i.spec.criteria|
    case Unchecked(k) => k < |i.spec.criteria|
    case _ => true
  }

  function Refuse(kind: Kind, reason: string): Pc { Refusing(kind, reason, reason) }

  /** Steps 1 to 1a3, decided from the declaration alone. */
  function AfterDeclared(i: Intent): Pc {
    if i.key == "" then Refusing(UNEVALUABLE, Say(AbsentKey), Say(NoKey))
    else if i.resolution.revokedRef != "" then
      Refusing(REVOKED, i.resolution.revokedRef, Say(RevokedBy) + i.resolution.revokedRef)
    else if !i.resolution.attested then
      Refusing(UNEVALUABLE, Say(UnattestedSpec) + i.specHash, Say(NoAttestation))
    else FirstCheck
  }

  /** Steps 1a4 to 1b: posture, human judgment, thin specs. */
  function AfterAdmission(i: Intent): (pc: Pc)
    ensures ValidPc(i, pc)
  {
    var cs := i.spec.criteria;
    if i.spec.posture != "enforce" && i.spec.posture != "shadow" then
      Refusing(UNEVALUABLE, Say(InvalidPosture) + i.spec.posture, Say(NoPosture))
    else if i.spec.humanJudgment != [] then
      Refusing(UNEVALUABLE, Say(HumanJudgment) + i.spec.humanJudgment[0],
               Say(NoHuman) + i.spec.humanJudgment[0])
    else if cs == [] then
      Refusing(UNEVALUABLE, Say(EmptyCriteria) + i.specHash, Say(NoCriteria))
    else
      var bad := First(0, |cs|, Misspelled(i));
      if bad < |cs| then
        Refusing(UNEVALUABLE, Say(InvalidVolatility) + cs[bad].name + ":" + cs[bad].volatility,
                 Say(NoVolatility) + cs[bad].name)
      else Resolving
  }

  function NextRecheck(i: Intent, k: nat): (pc: Pc)
    requires k <= |i.spec.criteria|
    ensures ValidPc(i, pc)
  {
    var v := First(k, |i.spec.criteria|, VolatileAt(i));
    if v < |i.spec.criteria| then Rechecking(v) else EdgeCheck
  }

  function NextScore(i: Intent, k: nat, failed: seq<string>): (pc: Pc)
    requires k <= |i.spec.criteria|
    ensures ValidPc(i, pc)
  {
    if k < |i.spec.criteria| then Scoring(k, failed)
    else if failed != [] then Refuse(FAILED, Join(failed, ","))
    else NextRecheck(i, 0)
  }

  /** What the program asks for at `pc`. */
  function Ask(h: Digest, i: Intent, pc: Pc): Request
    requires ValidPc(i, pc)
  {
    var cs := i.spec.criteria;
    match pc
    case Begin => Emit(DECLARED, Id(h, i))
    case FirstCheck => AskRevoked
    case Refusing(kind, detail, _) => EmitFinal(kind, detail)
    case Resolving => Emit(RESOLVING, "")
    case Activating => Emit(ACTIVE, "")
    case Verifying => Emit(VERIFYING, "")
    case Scoring(k, _) => AskDeclaration(k)
    case Scored(k, _, s) => Emit(SCORED, cs[k].name + ":" + ScoreText(s))
    case Unscorable(k) => Emit(UNEVALUABLE, cs[k].name)
    case Rechecking(k) => AskDispatch(k)
    case Rechecked(k, s) => Emit(RECHECK, cs[k].name + ":" + ScoreText(s))
    case Unchecked(k) => Emit(UNEVALUABLE, cs[k].name)
    case EdgeCheck => AskRevoked
    case EdgeRevoked(ref) => Emit(REVOKED, ref)
    case Shadowing => EmitTraced(SHADOW_RECORDED)
    case Reserving => AskReserve
    case Granting => Emit(IDEMPOTENCY_RESERVED, i.key)
    case Achieving => EmitTraced(ACHIEVED)
    case Done(_, _) => Halt
  }

  /** The terminal of a refusal: a step-1 refusal logs no FAILED event. */
  function TerminalOf(kind: Kind): Kind {
    if kind == UNEVALUABLE || kind == REVOKED then FAILED else kind
  }

  /** Where the program goes once the world has answered. */
  function Advance(i: Intent, w: World, pc: Pc): (pc': Pc)
    requires ValidPc(i, pc)
    ensures ValidPc(i, pc')
  {
    var cs := i.spec.criteria;
    match pc
    case Begin => AfterDeclared(i)
    case FirstCheck =>
      if w.first.Some? then Refusing(REVOKED, w.first.value, Say(RevokedBy) + w.first.value)
      else AfterAdmission(i)
    case Refusing(kind, _, reason) => Done(TerminalOf(kind), reason)
    case Resolving => Activating
    case Activating => Verifying
    case Verifying => NextScore(i, 0, [])
    case Scoring(k, failed) => Scored(k, failed, w.declaration(k))
    case Scored(k, failed, s) =>
      if s == PASS then NextScore(i, k + 1, failed)
      else if s == FAIL then NextScore(i, k + 1, failed + [cs[k].name])
      else Unscorable(k)
    case Unscorable(k) => Refuse(FAILED, Say(Unscored) + cs[k].name)
    case Rechecking(k) => Rechecked(k, w.dispatch(k))
    case Rechecked(k, s) =>
      if s == PASS then NextRecheck(i, k + 1)
      else if s == UNSCORED then Unchecked(k)
      else Refuse(FAILED_AT_DISPATCH, Say(Drifted) + cs[k].name)
    case Unchecked(k) => Refuse(FAILED_AT_DISPATCH, Say(Drifted) + cs[k].name)
    case EdgeCheck =>
      if w.edge.Some? then EdgeRevoked(w.edge.value)
      else if i.spec.posture == "shadow" then Shadowing
      else Reserving
    case EdgeRevoked(ref) => Refuse(FAILED_AT_DISPATCH, Say(RevokedBy) + ref)
    case Shadowing => Done(SHADOW_RECORDED, "")
    case Reserving => if w.granted then Granting else Refuse(FAILED_AT_DISPATCH, Say(Collided))
    case Granting => Achieving
    case Achieving => Done(ACHIEVED, "")
    case Done(_, _) => pc
  }

  // ---------------------------------------------------- records

  /** The logical clock counts 0, 1, 2, ... without a gap. */
  ghost predicate Clocked(recs: seq<Record>) { forall k :: 0 <= k < |recs| ==> recs[k].intentSeq == k }

  /** The per-intent log behind a list of mirrored records. */
  function EventsOf(recs: seq<Record>): (es: seq<Audit.Event>)
    ensures |es| == |recs|
  {
    seq(|recs|, k requires 0 <= k < |recs| => Audit.Event(k, recs[k].typ, recs[k].detail))
  }

  /** The mirror of one event, before the feed numbers it. */
  function Mirror(h: Digest, job: Job, request: Request, log: seq<Audit.Event>): (r: Record)
    requires Emits(request)
    ensures r.globalSeq == 0 && r.intentSeq == |log| && r.intentId == Id(h, job.intent)
    ensures r.typ == Name(request.kind)
    ensures r.detail == if request.EmitTraced? then Id(h, job.intent) else request.detail
    ensures request.Emit? ==> r.hash == ""
    ensures !request.Emit? ==> r.hash == Audit.HashOf(h, log + [Audit.Event(|log|, r.typ, r.detail)])
  {
    var i := job.intent;
    var detail := if request.EmitTraced? then Id(h, i) else request.detail;
    var base := ZERO.(intentSeq := |log|, intentId := Id(h, i), typ := Name(request.kind), detail := detail);
    var log' := log + [Audit.Event(|log|, base.typ, detail)];
    match request
    case Emit(kind, _) => if kind == SCORED || kind == RECHECK then base.(scorerId := job.scorerId) else base
    case EmitFinal(_, _) => base.(hash := Audit.HashOf(h, log'))
    case EmitTraced(_) =>
      base.(key := i.key, ruleHash := i.ruleHash, specHash := i.specHash, hash := Audit.HashOf(h, log'))
  }

  // ---------------------------------------------------- one run

  /** A run so far: where it is, what it has mirrored, and everything it asked
      of its environment. */
  datatype Snap = Snap(pc: Pc, recs: seq<Record>, trace: seq<Request>)

  const START := Snap(Begin, [], [])

  ghost predicate ValidSnap(job: Job, s: Snap) { ValidPc(job.intent, s.pc) && Clocked(s.recs) }

  function NextRecord(h: Digest, job: Job, s: Snap): Record
    requires ValidSnap(job, s) && Emits(Ask(h, job.intent, s.pc))
  {
    Mirror(h, job, Ask(h, job.intent, s.pc), EventsOf(s.recs))
  }

  function Next(h: Digest, job: Job, w: World, s: Snap): (s': Snap)
    requires ValidSnap(job, s)
    ensures ValidSnap(job, s')
  {
    hide Ask, Advance, Mirror, Say;
    if s.pc.Done? then s
    else
      var request := Ask(h, job.intent, s.pc);
      Snap(Advance(job.intent, w, s.pc),
           if Emits(request) then s.recs + [NextRecord(h, job, s)] else s.recs,
           s.trace + [request])
  }

  function Stage(pc: Pc): nat {
    match pc
    case Begin => 11
    case FirstCheck => 10
    case Resolving => 9
    case Activating => 8
    case Verifying => 7
    case Scoring(_, _) => 6
    case Scored(_, _, _) => 6
    case Rechecking(_) => 5
    case Rechecked(_, _) => 5
    case EdgeCheck => 4
    case Reserving => 3
    case Unscorable(_) => 2
    case Unchecked(_) => 2
    case EdgeRevoked(_) => 2
    case Granting => 2
    case Refusing(_, _, _) => 1
    case Shadowing => 1
    case Achieving => 1
    case Done(_, _) => 0
  }

  function Left(i: Intent, pc: Pc): nat
    requires ValidPc(i, pc)
  {
    match pc
    case Scoring(k, _) => 2 * (|i.spec.criteria| - k) + 1
    case Scored(k, _, _) => 2 * (|i.spec.criteria| - k)
    case Rechecking(k) => 2 * (|i.spec.criteria| - k) + 1
    case Rechecked(k, _) => 2 * (|i.spec.criteria| - k)
    case _ => 0
  }

  predicate Closer(i: Intent, pc: Pc, pc': Pc)
    requires ValidPc(i, pc) && ValidPc(i, pc')
  {
    Stage(pc') < Stage(pc) || (Stage(pc') == Stage(pc) && Left(i, pc') < Left(i, pc))
  }

  lemma AdvanceCloser(i: Intent, w: World, pc: Pc)
    requires ValidPc(i, pc) && !pc.Done?
    ensures Closer(i, pc, Advance(i, w, pc))
  {
    hide AfterDeclared, AfterAdmission, First, Join, Say;
    AdmissionCloser(i);
  }

  lemma AdmissionCloser(i: Intent)
    ensures Stage(AfterDeclared(i)) <= 10 && Stage(AfterAdmission(i)) <= 9
  {
    hide First, Say;
  }

  lemma Decreases(h: Digest, job: Job, w: World, s: Snap)
    requires ValidSnap(job, s) && !s.pc.Done?
    ensures Closer(job.intent, s.pc, Next(h, job, w, s).pc)
  {
    hide Ask, NextRecord, Advance, Closer;
    AdvanceCloser(job.intent, w, s.pc);
  }

  /** The run to completion. */
  function Finish(h: Digest, job: Job, w: World, s: Snap): (r: Snap)
    requires ValidSnap(job, s)
    ensures ValidSnap(job, r) && r.pc.Done?
    decreases Stage(s.pc), Left(job.intent, s.pc)
  {
    hide Next, Stage, Left;
    if s.pc.Done? then s
    else
      Decreases(h, job, w, s);
      Finish(h, job, w, Next(h, job, w, s))
  }

  function Outcome(h: Digest, job: Job, w: World): Snap { Finish(h, job, w, START) }
}
