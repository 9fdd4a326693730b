// What holds of every run of the gate at every point, whatever the scorer, the
// revocation checker and the reservation store answer.

module GateInvariant {
  import opened Text
  import opened Hashing
  import opened Intents
  import opened Lifecycle
  import opened FeedRecord
  import opened Gate
  import Audit

  ghost predicate KnownType(t: string) { exists k: Kind :: t == Name(k) }

  /** Types a last record may have. */
  predicate Final(k: Kind) { k in {ACHIEVED, SHADOW_RECORDED, FAILED, FAILED_AT_DISPATCH, UNEVALUABLE, REVOKED} }

  predicate Traced(k: Kind) { k == ACHIEVED || k == SHADOW_RECORDED }

  /** How a refusal's last record and its reason determine one another. */
  ghost predicate RefusalShape(kind: Kind, detail: string, reason: string) {
    match kind
    case FAILED => detail == reason
    case FAILED_AT_DISPATCH => detail == reason
    case REVOKED => reason == Say(RevokedBy) + detail
    case UNEVALUABLE =>
      || (detail == Say(AbsentKey) && reason == Say(NoKey))
      || (HasPrefix(detail, Say(UnattestedSpec)) && reason == Say(NoAttestation))
      || (HasPrefix(detail, Say(InvalidPosture)) && reason == Say(NoPosture))
      || (HasPrefix(detail, Say(EmptyCriteria)) && reason == Say(NoCriteria))
      || (HasPrefix(detail, Say(HumanJudgment)) && reason == Say(Unscored) + detail)
      || (HasPrefix(detail, Say(InvalidVolatility)) && HasPrefix(reason, Say(NoVolatility)))
    case _ => false
  }

  /** The program has passed the declaration checks: it has a key and an
      attested spec. */
  predicate Admitted(pc: Pc) {
    !pc.Begin? && !pc.Refusing? && !(pc.Done? && !Traced(pc.terminal))
  }

  ghost predicate PcInv(i: Intent, pc: Pc) {
    && ValidPc(i, pc)
    && (Admitted(pc) ==> i.key != "" && i.resolution.attested)
    && (pc.Refusing? ==> RefusalShape(pc.kind, pc.detail, pc.reason))
    && (pc.Done? ==> IsTerminal(pc.terminal))
  }

  /** A record of this run that is not its last. */
  ghost predicate Interior(h: Digest, job: Job, r: Record) {
    && r.globalSeq == 0 && r.intentId == Id(h, job.intent)
    && KnownType(r.typ) && r.typ != Name(ACHIEVED) && r.hash == ""
  }

  /** The last record of a completed run. */
  ghost predicate Closing(h: Digest, job: Job, pc: Pc, recs: seq<Record>)
    requires recs != []
  {
    var last := recs[|recs| - 1];
    && pc.Done?
    && last.globalSeq == 0 && last.intentId == Id(h, job.intent)
    && last.hash == Audit.HashOf(h, EventsOf(recs))
    && (if Traced(pc.terminal)
        then last.typ == Name(pc.terminal) && last.detail == Id(h, job.intent)
             && last.key == job.intent.key && last.specHash == job.intent.specHash
             && last.ruleHash == job.intent.ruleHash
        else exists kind :: last.typ == Name(kind) && TerminalOf(kind) == pc.terminal
                            && RefusalShape(kind, last.detail, pc.reason))
  }

  /** A non-empty list of records: DECLARED first, nothing committed before
      the last, and the last commits exactly when the run is done. */
  ghost predicate RecsInv(h: Digest, job: Job, pc: Pc, recs: seq<Record>)
    requires recs != []
  {
    && recs[0].typ == Name(DECLARED) && recs[0].detail == Id(h, job.intent)
    && (forall k :: 0 <= k < |recs| - 1 ==> Interior(h, job, recs[k]))
    && (if pc.Done? then |recs| > 1 && Closing(h, job, pc, recs)
        else Interior(h, job, recs[|recs| - 1]))
  }

  ghost predicate RunInv(h: Digest, job: Job, s: Snap) {
    && ValidSnap(job, s)
    && PcInv(job.intent, s.pc)
    && (s.pc.Begin? <==> s.recs == [])
    && (s.recs != [] ==> RecsInv(h, job, s.pc, s.recs))
  }

  lemma StartInv(h: Digest, job: Job)
    ensures RunInv(h, job, START)
  {}

  lemma PrefixOf(p: string, s: string)
    ensures HasPrefix(p + s, p)
  {}

  lemma HumanReason(name: string)
    ensures Say(Unscored) + (Say(HumanJudgment) + name) == Say(NoHuman) + name
  {
    assert Say(Unscored) + Say(HumanJudgment) == Say(NoHuman);
  }

  /** The declaration checks only refuse in the shapes the contract lists. */
  lemma ChecksShape(i: Intent)
    ensures PcInv(i, AfterDeclared(i))
    ensures i.key != "" && i.resolution.attested ==> PcInv(i, AfterAdmission(i))
  {
    hide First, Misspelled, Say;
    PrefixOf(Say(UnattestedSpec), i.specHash);
    PrefixOf(Say(InvalidPosture), i.spec.posture);
    PrefixOf(Say(EmptyCriteria), i.specHash);
    if i.spec.humanJudgment != [] {
      PrefixOf(Say(HumanJudgment), i.spec.humanJudgment[0]);
      HumanReason(i.spec.humanJudgment[0]);
    }
    var cs := i.spec.criteria;
    var bad := First(0, |cs|, Misspelled(i));
    if bad < |cs| {
      PrefixOf(Say(InvalidVolatility), cs[bad].name + ":" + cs[bad].volatility);
      assert Say(InvalidVolatility) + cs[bad].name + ":" + cs[bad].volatility
          == Say(InvalidVolatility) + (cs[bad].name + ":" + cs[bad].volatility);
      PrefixOf(Say(NoVolatility), cs[bad].name);
    }
  }

  lemma AdvanceInv(i: Intent, w: World, pc: Pc)
    requires PcInv(i, pc)
    ensures PcInv(i, Advance(i, w, pc))
  {
    hide AfterDeclared, AfterAdmission, First, Join, Say;
    ChecksShape(i);
  }

  /** Only the last step of a run commits a hash, and only a grant emits
      ACHIEVED. */
  ghost predicate AskShape(h: Digest, i: Intent, pc: Pc, request: Request) {
    && (pc.Begin? ==> request == Emit(DECLARED, Id(h, i)))
    && (request.Emit? ==> request.kind != ACHIEVED && !pc.Refusing? && !pc.Shadowing? && !pc.Achieving? && !pc.Done?)
    && (request.EmitFinal? ==> pc.Refusing? && request == EmitFinal(pc.kind, pc.detail))
    && (request.EmitTraced? ==> (pc.Shadowing? && request.kind == SHADOW_RECORDED)
                                || (pc.Achieving? && request.kind == ACHIEVED))
    && (!Emits(request) ==> !pc.Begin? && !pc.Refusing? && !pc.Shadowing? && !pc.Achieving?)
  }

  lemma AskHasShape(h: Digest, i: Intent, pc: Pc)
    requires ValidPc(i, pc)
    ensures AskShape(h, i, pc, Ask(h, i, pc))
  {
    hide AskShape, Ask, Say;
    if pc.Begin? || pc.Refusing? || pc.Shadowing? || pc.Achieving? || pc.Done? {
      AskAtEnds(h, i, pc);
    } else {
      AskInside(h, i, pc);
      InsideShape(h, i, pc, Ask(h, i, pc));
    }
  }

  lemma AskAtEnds(h: Digest, i: Intent, pc: Pc)
    requires ValidPc(i, pc)
    requires pc.Begin? || pc.Refusing? || pc.Shadowing? || pc.Achieving? || pc.Done?
    ensures AskShape(h, i, pc, Ask(h, i, pc))
  {
    hide ScoreText, Id, Say;
  }

  lemma AskInside(h: Digest, i: Intent, pc: Pc)
    requires ValidPc(i, pc) && !pc.Begin? && !pc.Refusing? && !pc.Shadowing? && !pc.Achieving? && !pc.Done?
    ensures var request := Ask(h, i, pc); if Emits(request) then request.Emit? && request.kind != ACHIEVED else true
  {
    hide ScoreText, Id, Say;
  }

  lemma InsideShape(h: Digest, i: Intent, pc: Pc, request: Request)
    requires !pc.Begin? && !pc.Refusing? && !pc.Shadowing? && !pc.Achieving? && !pc.Done?
    requires Emits(request) ==> request.Emit? && request.kind != ACHIEVED
    ensures AskShape(h, i, pc, request)
  {}

  lemma AdvanceShape(i: Intent, w: World, pc: Pc)
    requires ValidPc(i, pc)
    ensures var pc' := Advance(i, w, pc);
      && !pc'.Begin?
      && (pc'.Done? <==> pc.Refusing? || pc.Shadowing? || pc.Achieving? || pc.Done?)
      && (pc.Refusing? ==> pc' == Done(TerminalOf(pc.kind), pc.reason))
      && (pc.Shadowing? ==> pc' == Done(SHADOW_RECORDED, ""))
      && (pc.Achieving? ==> pc' == Done(ACHIEVED, ""))
  {
    hide AfterDeclared, AfterAdmission, First, Join, Say;
    ChecksContinue(i);
  }

  lemma ChecksContinue(i: Intent)
    ensures !AfterDeclared(i).Done? && !AfterDeclared(i).Begin?
    ensures !AfterAdmission(i).Done? && !AfterAdmission(i).Begin?
  {
    hide First, Say;
  }

  lemma NameDiffers(a: Kind, b: Kind)
    requires a != b
    ensures Name(a) != Name(b)
  {
    if Name(a) == Name(b) {
      NameInjective(a, b);
    }
  }

  /** Every step of every run keeps the invariant. */
  lemma NextInv(h: Digest, job: Job, w: World, s: Snap)
    requires RunInv(h, job, s)
    ensures RunInv(h, job, Next(h, job, w, s))
  {
    hide Say, Ask, Advance, PcInv, RecsInv, NextRecord, AskShape;
    var i := job.intent;
    var request := Ask(h, i, s.pc);
    assert ValidPc(i, s.pc);
    AdvanceInv(i, w, s.pc);
    AdvanceShape(i, w, s.pc);
    AskHasShape(h, i, s.pc);
    if s.pc.Done? {
    } else if request.Emit? {
      InteriorStep(h, job, w, s);
    } else if Emits(request) {
      ClosingStep(h, job, w, s);
    } else {
      SilentStep(h, job, w, s);
    }
  }

  lemma SilentStep(h: Digest, job: Job, w: World, s: Snap)
    requires RunInv(h, job, s) && !Emits(Ask(h, job.intent, s.pc)) && !s.pc.Done?
    ensures !s.pc.Begin?
    ensures RecsInv(h, job, Advance(job.intent, w, s.pc), s.recs)
  {
    hide Say, Ask, Advance, Interior, Closing, PcInv, Name, EventsOf;
    assert ValidPc(job.intent, s.pc);
    AskHasShape(h, job.intent, s.pc);
    AdvanceShape(job.intent, w, s.pc);
  }

  /** Another interior record keeps the list well formed. */
  lemma AppendInterior(h: Digest, job: Job, pc: Pc, recs: seq<Record>, r: Record)
    requires r.intentSeq == |recs|
    requires !pc.Done? && Interior(h, job, r)
    requires if recs == [] then r.typ == Name(DECLARED) && r.detail == Id(h, job.intent)
             else RecsInv(h, job, pc, recs)
    ensures RecsInv(h, job, pc, recs + [r])
  {
    hide Say, Interior, Name, Id;
  }

  lemma InteriorStep(h: Digest, job: Job, w: World, s: Snap)
    requires RunInv(h, job, s) && Ask(h, job.intent, s.pc).Emit?
    ensures RecsInv(h, job, Advance(job.intent, w, s.pc), s.recs + [NextRecord(h, job, s)])
  {
    hide Say, Ask, Advance, PcInv, Name, Mirror, EventsOf, Closing, Id;
    var i := job.intent;
    var request, pc' := Ask(h, i, s.pc), Advance(i, w, s.pc);
    assert ValidPc(i, s.pc);
    AskHasShape(h, i, s.pc);
    AdvanceShape(i, w, s.pc);
    NameDiffers(request.kind, ACHIEVED);
    var r := NextRecord(h, job, s);
    assert KnownType(r.typ);
    assert Interior(h, job, r);
    AppendInterior(h, job, pc', s.recs, r);
  }

  /** The record that ends a run. */
  lemma AppendClosing(h: Digest, job: Job, pc: Pc, pc': Pc, recs: seq<Record>, r: Record)
    requires r.intentSeq == |recs|
    requires recs != [] && !pc.Done? && pc'.Done? && RecsInv(h, job, pc, recs)
    requires r.globalSeq == 0 && r.intentId == Id(h, job.intent)
    requires r.hash == Audit.HashOf(h, EventsOf(recs) + [Audit.Event(|recs|, r.typ, r.detail)])
    requires if Traced(pc'.terminal)
             then r.typ == Name(pc'.terminal) && r.detail == Id(h, job.intent)
                  && r.key == job.intent.key && r.specHash == job.intent.specHash && r.ruleHash == job.intent.ruleHash
             else exists kind :: r.typ == Name(kind) && TerminalOf(kind) == pc'.terminal
                                 && RefusalShape(kind, r.detail, pc'.reason)
    ensures RecsInv(h, job, pc', recs + [r])
  {
    hide Say, Interior, Name, Id, TerminalOf, RefusalShape, EventsOf, Traced;
    EventsSnoc(recs, r);
    var all := recs + [r];
    assert all[|all| - 1] == r && all[|recs| - 1] == recs[|recs| - 1];
    assert Closing(h, job, pc', all);
  }

  lemma ClosingStep(h: Digest, job: Job, w: World, s: Snap)
    requires RunInv(h, job, s) && Emits(Ask(h, job.intent, s.pc)) && !Ask(h, job.intent, s.pc).Emit?
    ensures s.recs != []
    ensures RecsInv(h, job, Advance(job.intent, w, s.pc), s.recs + [NextRecord(h, job, s)])
  {
    hide Say, Ask, Advance, RecsInv, Name, TerminalOf, RefusalShape, Mirror, EventsOf, Id;
    var i := job.intent;
    var request, pc' := Ask(h, i, s.pc), Advance(i, w, s.pc);
    assert ValidPc(i, s.pc);
    AskHasShape(h, i, s.pc);
    AdvanceShape(i, w, s.pc);
    var r := NextRecord(h, job, s);
    if request.EmitFinal? {
      assert r.typ == Name(request.kind) && RefusalShape(request.kind, r.detail, pc'.reason);
      RefusalIsNotTraced(request.kind, r.detail, pc'.reason);
    } else {
      TracedRecord(h, job, request, EventsOf(s.recs));
    }
    AppendClosing(h, job, s.pc, pc', s.recs, r);
  }

  lemma EventsSnoc(recs: seq<Record>, r: Record)
    ensures EventsOf(recs + [r]) == EventsOf(recs) + [Audit.Event(|recs|, r.typ, r.detail)]
  {}

  lemma TracedRecord(h: Digest, job: Job, request: Request, log: seq<Audit.Event>)
    requires request.EmitTraced?
    ensures var r := Mirror(h, job, request, log);
      r.key == job.intent.key && r.specHash == job.intent.specHash && r.ruleHash == job.intent.ruleHash
  {}

  lemma RefusalIsNotTraced(kind: Kind, detail: string, reason: string)
    requires RefusalShape(kind, detail, reason)
    ensures !Traced(TerminalOf(kind)) && Final(kind)
  {
    hide Say;
  }
}
