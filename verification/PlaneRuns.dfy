// Whole executions: crash-free ones end VERIFIED, every grant is deserved,
// revocation is effective, and the Authorize method is one of the runs.

module PlaneRuns {
  import opened Text
  import opened Hashing
  import opened Intents
  import opened Lifecycle
  import opened Gate
  import opened GateInvariant
  import opened GateTheorems
  import opened GateVerified
  import opened Plane
  import opened PlaneTheorems
  import opened Authorization
  import opened Seqs
  import opened Lines
  import VI = VerifierInput
  import V = Verifier
  import Feed
  import Idempotency

  /** Safety of every reachable state, in one statement. */
  lemma SafeExecution(h: Digest, ps: seq<State>, es: seq<Event>, k: nat)
    requires Execution(h, ps, es) && k < |ps|
    ensures Report(h, ps[k]).overall != VI.Refuted
    ensures forall f :: f in Report(h, ps[k]).feed ==> f.verdict == VI.Unverifiable
    ensures forall f :: f in Report(h, ps[k]).intents ==> f.scope in ps[k].runs && f == Judged(ps[k], f.scope)
    ensures forall id :: id in ps[k].runs && RecordsOf(ps[k], id) != [] ==>
      exists f :: f in Report(h, ps[k]).intents && f.scope == id
    ensures forall a, b :: 0 <= a < b && IsGrant(ps[k], a) && IsGrant(ps[k], b) ==>
      ps[k].feed.records[a].key != ps[k].feed.records[b].key
  {
    hide Report, Inv, Execution;
    ExecutionInv(h, ps, es, k);
    NeverRefuted(h, ps[k]);
    forall a: nat, b: nat | a < b && IsGrant(ps[k], a) && IsGrant(ps[k], b)
      ensures ps[k].feed.records[a].key != ps[k].feed.records[b].key
    {
      OneGrantPerKey(h, ps[k], a, b);
    }
  }

  // ---------------------------------------------------- without crashes

  ghost predicate CrashFree(es: seq<Event>) { forall k :: 0 <= k < |es| ==> !es[k].Crash? }

  ghost predicate Tidy(p: State) {
    && VI.Clean(p.feed) && !Unterminated(p.feed.disk)
    && forall id :: id in p.runs ==> p.runs[id].alive
  }

  lemma StepTidy(h: Digest, p: State, e: Event, p': State)
    requires Inv(h, p) && Tidy(p) && Step(h, p, e, p') && !e.Crash?
    ensures Tidy(p')
  {
    hide VI.Legible, Feed.Sound, Idempotency.Sound, RunsSound, Owned, VI.Clean, Unterminated, Feed.Appended,
         Idempotency.Reserved, Next, Pending, RequestOf, VI.Readable, ValidSnap, Id;
    if e.Move? && Emits(RequestOf(h, p, e.id)) {
      PendingReadable(h, p, e.id);
      VI.AppendLegible(p.feed, Pending(h, p, e.id));
    }
  }

  lemma {:induction false} ExecutionTidy(h: Digest, ps: seq<State>, es: seq<Event>, k: nat)
    requires Execution(h, ps, es) && CrashFree(es) && k < |ps|
    ensures Tidy(ps[k])
    decreases k
  {
    hide Inv, Step, Tidy;
    if k == 0 {
      InitTidy();
    } else {
      ExecutionTidy(h, ps, es, k - 1);
      ExecutionInv(h, ps, es, k - 1);
      assert Step(h, ps[k - 1], es[k - 1], ps[k - 1 + 1]);
      StepTidy(h, ps[k - 1], es[k - 1], ps[k]);
    }
  }

  lemma InitTidy()
    ensures Tidy(INIT)
  {
    hide VI.Clean, Feed.Recovered;
    VI.EmptyLegible();
  }

  ghost predicate AllFinished(p: State) {
    p.runs != map[] && forall id :: id in p.runs ==> p.runs[id].snap.pc.Done?
  }

  lemma NoFeedFindings(h: Digest, p: State)
    requires Inv(h, p) && Tidy(p) && AllFinished(p)
    ensures Report(h, p).feed == []
  {
    hide RunsSound, Owned, Feed.Sound, Idempotency.Sound, V.FeedFindings, V.IntentFindings, VI.FileFindings, Split,
         Recover, VI.Readable, V.Order, Unterminated, Filter;
    var id :| id in p.runs;
    FinishedRecorded(h, p, id);
    SomeRecord(p, id);
    VI.LegibleFindings(p.feed);
    FeedFine(h, p);
  }

  lemma AllPass(fs: seq<VI.Finding>, gs: seq<VI.Finding>)
    requires fs == [] && forall g :: g in gs ==> g.verdict == VI.Verified
    ensures V.Overall(fs + gs) == VI.Verified
  {
    assert fs + gs == gs;
  }

  lemma FinishedVerified(h: Digest, p: State)
    requires Inv(h, p) && Tidy(p) && AllFinished(p)
    ensures Report(h, p).overall == VI.Verified
    ensures forall id :: id in p.runs ==> VI.Finding(id, VI.Verified, "") in Report(h, p).intents
  {
    hide Inv, Tidy, V.FeedFindings, V.IntentFindings, VI.FileFindings, Split, Recover, V.Order, Plane.RecordsOf,
         V.Overall;
    NeverRefuted(h, p);
    NoFeedFindings(h, p);
    var rep := Report(h, p);
    forall f | f in rep.intents
      ensures f.verdict == VI.Verified
    {
      assert f == Judged(p, f.scope);
    }
    AllPass(rep.feed, rep.intents);
    forall id | id in p.runs
      ensures VI.Finding(id, VI.Verified, "") in rep.intents
    {
      FinishedRecorded(h, p, id);
      var f :| f in rep.intents && f.scope == id;
      assert f == Judged(p, id);
    }
  }

  /** Without crashes, once some run has happened and all have finished, the
      examiner passes the file: no feed finding, every intent VERIFIED. */
  lemma AllVerified(h: Digest, ps: seq<State>, es: seq<Event>, k: nat)
    requires Execution(h, ps, es) && CrashFree(es) && k < |ps| && AllFinished(ps[k])
    ensures Report(h, ps[k]).overall == VI.Verified && Report(h, ps[k]).feed == []
    ensures forall id :: id in ps[k].runs ==> VI.Finding(id, VI.Verified, "") in Report(h, ps[k]).intents
  {
    hide Execution, Inv, Tidy, AllFinished, Report;
    ExecutionInv(h, ps, es, k);
    ExecutionTidy(h, ps, es, k);
    NoFeedFindings(h, ps[k]);
    FinishedVerified(h, ps[k]);
  }

  lemma FinishedRecorded(h: Digest, p: State, id: string)
    requires Inv(h, p) && id in p.runs && p.runs[id].snap.pc.Done?
    ensures RecordsOf(p, id) != []
  {
    hide VI.Legible, Feed.Sound, Idempotency.Sound, Owned, RecordsOf, RecsInv, PcInv, Id;
    assert RunSound(h, p, id, p.runs[id]);
  }

  lemma SomeRecord(p: State, id: string)
    requires RecordsOf(p, id) != []
    ensures p.feed.records != []
  {}

  // ---------------------------------------------------- every grant is deserved

  /** Every run is a point of the run its world determines. */
  ghost predicate Faithful(h: Digest, p: State) {
    forall id :: id in p.runs ==>
      var r := p.runs[id];
      ValidSnap(r.job, r.snap) && Finish(h, r.job, r.world, r.snap) == Outcome(h, r.job, r.world)
  }

  lemma StepFaithful(h: Digest, p: State, e: Event, p': State)
    requires Faithful(h, p) && Step(h, p, e, p')
    ensures Faithful(h, p')
  {
    hide Finish, Next, Feed.Appended, Feed.Opened, Feed.Torn, Idempotency.Reserved, Idempotency.Opened,
         Idempotency.Torn, Landed, Pending, RequestOf, Id, ValidSnap, Feed.FeedWrite, Idempotency.ReserveWrite;
    forall id | id in p'.runs
      ensures ValidSnap(p'.runs[id].job, p'.runs[id].snap)
      ensures Finish(h, p'.runs[id].job, p'.runs[id].world, p'.runs[id].snap)
           == Outcome(h, p'.runs[id].job, p'.runs[id].world)
    {
      if id in p.runs {
        StillFaithful(h, p.runs[id]);
      } else {
        StartValid(p'.runs[id].job);
      }
    }
  }

  lemma StartValid(job: Job)
    ensures ValidSnap(job, START)
  {}

  lemma StillFaithful(h: Digest, r: Run)
    requires ValidSnap(r.job, r.snap) && Finish(h, r.job, r.world, r.snap) == Outcome(h, r.job, r.world)
    ensures ValidSnap(r.job, Moved(h, r).snap)
    ensures Finish(h, r.job, r.world, Moved(h, r).snap) == Outcome(h, r.job, r.world)
  {
    hide Next, Outcome, Finish, ValidSnap;
    if !r.snap.pc.Done? {
      FinishNext(h, r.job, r.world, r.snap);
    } else {
      NextDone(h, r);
    }
  }

  lemma NextDone(h: Digest, r: Run)
    requires ValidSnap(r.job, r.snap) && r.snap.pc.Done?
    ensures Next(h, r.job, r.world, r.snap) == r.snap
  {}

  lemma {:induction false} ExecutionFaithful(h: Digest, ps: seq<State>, es: seq<Event>, k: nat)
    requires Execution(h, ps, es) && k < |ps|
    ensures Faithful(h, ps[k])
    decreases k
  {
    hide Step, Faithful;
    if k == 0 {
      InitFaithful(h);
    } else {
      ExecutionFaithful(h, ps, es, k - 1);
      assert Step(h, ps[k - 1], es[k - 1], ps[k - 1 + 1]);
      StepFaithful(h, ps[k - 1], es[k - 1], ps[k]);
    }
  }

  lemma InitFaithful(h: Digest)
    ensures Faithful(h, INIT)
  {
    hide Feed.Opened, Idempotency.Opened;
  }

  /** Under any interleaving and any crashes, a key is granted only to an
      intent whose declaration and answers meet every condition of a grant. */
  lemma GrantsDeserved(h: Digest, ps: seq<State>, es: seq<Event>, n: nat, k: nat)
    requires Execution(h, ps, es) && n < |ps| && IsGrant(ps[n], k)
    ensures var r := ps[n].feed.records[k];
      r.intentId in ps[n].runs && Deserved(ps[n].runs[r.intentId].job.intent, ps[n].runs[r.intentId].world)
  {
    var p := ps[n];
    ExecutionInv(h, ps, es, n);
    ExecutionFaithful(h, ps, es, n);
    hide Execution, Finish, Deserved, Inv, Outcome, RecordsOf, PositionOf;
    GrantIsLast(h, p, k);
    GrantIsDone(h, p, k);
    var r := p.runs[p.feed.records[k].intentId];
    AchievedExactly(h, r.job, r.world);
    assert r.snap == Outcome(h, r.job, r.world) by { FinishDone(h, r); }
  }

  lemma FinishDone(h: Digest, r: Run)
    requires ValidSnap(r.job, r.snap) && r.snap.pc.Done?
    ensures Finish(h, r.job, r.world, r.snap) == r.snap
  {}

  lemma GrantIsDone(h: Digest, p: State, k: nat)
    requires Inv(h, p) && IsGrant(p, k)
    ensures p.feed.records[k].intentId in p.runs
    ensures var s := p.runs[p.feed.records[k].intentId].snap; s.pc.Done? && s.pc.terminal == ACHIEVED
  {
    hide VI.Legible, Feed.Sound, Idempotency.Sound, RunInv, Filter, Stamped, Id, WellResolved;
    var r := p.feed.records[k];
    var id := r.intentId;
    assert RunSound(h, p, id, p.runs[id]);
    FilterAt(p.feed.records, k, Feed.OfIntent(id));
    GrantCloses(h, p.runs[id].job, p.runs[id].snap, RecordsOf(p, id), PositionOf(p, k));
  }

  // ---------------------------------------------------- revocation

  function Tombstone(p: State, hash: string): Option<string> {
    if hash in p.tombs then Some(p.tombs[hash]) else None
  }

  /** The revocation signal answers from the tombstones of the moment. */
  ghost predicate HonestMove(h: Digest, p: State, id: string)
    requires id in p.runs
  {
    var r := p.runs[id];
    && (r.snap.pc.FirstCheck? ==> r.world.first == Tombstone(p, r.job.intent.specHash))
    && (r.snap.pc.EdgeCheck? ==> r.world.edge == Tombstone(p, r.job.intent.specHash))
  }

  ghost predicate Honest(h: Digest, ps: seq<State>, es: seq<Event>)
    requires |ps| == |es| + 1
  {
    forall k :: 0 <= k < |es| && es[k].Move? && es[k].id in ps[k].runs ==> HonestMove(h, ps[k], es[k].id)
  }

  /** The run has passed the revocation check at the dispatch edge. */
  predicate PastEdge(pc: Pc) {
    || pc.Shadowing? || pc.Reserving? || pc.Granting? || pc.Achieving?
    || (pc.Done? && (pc.terminal == ACHIEVED || pc.terminal == SHADOW_RECORDED))
  }

  lemma PastEdgeNext(i: Intent, w: World, pc: Pc)
    requires ValidPc(i, pc) && (pc.Refusing? ==> !Traced(TerminalOf(pc.kind)))
    ensures PastEdge(Advance(i, w, pc)) ==> PastEdge(pc) || (pc.EdgeCheck? && w.edge.None?)
  {
    hide Say, First, Join, AfterDeclared, AfterAdmission;
    ChecksNotPast(i);
  }

  lemma ChecksNotPast(i: Intent)
    ensures !PastEdge(AfterDeclared(i)) && !PastEdge(AfterAdmission(i))
  {
    hide Say, First, Misspelled;
  }

  /** The spec is revoked and the run has not passed its dispatch-edge check. */
  ghost predicate Barred(p: State, id: string, hash: string) {
    && hash in p.tombs
    && (id in p.runs ==> p.runs[id].job.intent.specHash == hash && !PastEdge(p.runs[id].snap.pc))
  }

  lemma MoveBarred(h: Digest, p: State, mover: string, p': State, id: string, hash: string)
    requires Inv(h, p) && MoveStep(h, p, mover, p') && Barred(p, id, hash) && HonestMove(h, p, mover)
    ensures Barred(p', id, hash)
  {
    hide VI.Legible, Feed.Sound, Idempotency.Sound, Owned, Feed.Appended, Idempotency.Reserved, Id, Stamped, PastEdge,
         RequestOf, Pending, Advance, RecsInv, Ask, NextRecord;
    if id in p.runs && id == mover {
      var r := p.runs[id];
      assert RunSound(h, p, id, r);
      NotTraced(h, r);
      PastEdgeNext(r.job.intent, r.world, r.snap.pc);
      NextFields(h, r.job, r.world, r.snap);
    }
  }

  lemma NotTraced(h: Digest, r: Run)
    requires RunInv(h, r.job, r.snap)
    ensures r.snap.pc.Refusing? ==> !Traced(TerminalOf(r.snap.pc.kind))
  {
    hide Say;
  }

  lemma CrashBarred(h: Digest, p: State, f: Option<InFlight>, i: Option<InFlight>, p': State, id: string, hash: string)
    requires Inv(h, p) && CrashStep(h, p, f, i, p') && Barred(p, id, hash)
    ensures Barred(p', id, hash)
  {
    hide VI.Legible, Feed.Sound, Idempotency.Sound, Owned, Feed.Torn, Feed.Opened, Idempotency.Torn, Idempotency.Opened,
         Id, Stamped, PastEdge, Pending, Advance, RecsInv, Ask, NextRecord, Feed.FeedWrite, Idempotency.ReserveWrite;
    if id in p.runs && f.Some? && f.value.id == id && Landed(h, p, f.value) {
      var r := p.runs[id];
      assert RunSound(h, p, id, r);
      NotTraced(h, r);
      PastEdgeNext(r.job.intent, r.world, r.snap.pc);
      NextFields(h, r.job, r.world, r.snap);
      EdgeSilent(h, r.job.intent, r.snap.pc);
    }
  }

  lemma EdgeSilent(h: Digest, i: Intent, pc: Pc)
    requires ValidPc(i, pc)
    ensures pc.EdgeCheck? ==> !Emits(Ask(h, i, pc))
  {}

  lemma StepBarred(h: Digest, p: State, e: Event, p': State, id: string, hash: string)
    requires Inv(h, p) && Step(h, p, e, p') && Barred(p, id, hash)
    requires e.Move? && e.id in p.runs ==> HonestMove(h, p, e.id)
    requires e.Start? && Id(h, e.job.intent) == id ==> e.job.intent.specHash == hash
    ensures Barred(p', id, hash)
  {
    hide Inv, MoveStep, CrashStep, HonestMove, Id;
    match e
    case Start(_, job, world) =>
    case Move(mover) =>
      assert mover in p.runs by { MoverKnown(h, p, mover, p'); }
      MoveBarred(h, p, mover, p', id, hash);
    case Crash(f, i) => CrashBarred(h, p, f, i, p', id, hash);
    case Revoke(other, ref) =>
  }

  lemma MoverKnown(h: Digest, p: State, id: string, p': State)
    requires MoveStep(h, p, id, p')
    ensures id in p.runs
  {}

  /** Revocation is effective and permanent: once a spec is revoked, a run
      under it that has not passed its dispatch-edge check (or has not even
      started) never reserves its key and never emits ACHIEVED or
      SHADOW_RECORDED, whatever else is published, revoked, run or crashed. */
  lemma {:induction false} RevocationEffective(
    h: Digest, ps: seq<State>, es: seq<Event>, i: nat, j: nat, id: string, hash: string)
    requires Execution(h, ps, es) && Honest(h, ps, es) && i <= j < |ps| && Barred(ps[i], id, hash)
    requires forall k :: 0 <= k < |es| && es[k].Start? && Id(h, es[k].job.intent) == id ==>
      es[k].job.intent.specHash == hash
    ensures hash in ps[j].tombs
    ensures id in ps[j].runs ==> !PastEdge(ps[j].runs[id].snap.pc) && !Holds(ps[j].runs[id].snap.pc)
    ensures Barred(ps[j], id, hash)
    decreases j - i
  {
    hide Inv, Step, HonestMove, Id;
    if i < j {
      RevocationEffective(h, ps, es, i, j - 1, id, hash);
      ExecutionInv(h, ps, es, j - 1);
      assert Step(h, ps[j - 1], es[j - 1], ps[j - 1 + 1]);
      StepBarred(h, ps[j - 1], es[j - 1], ps[j], id, hash);
    }
  }

  // ---------------------------------------------------- the method is a run

  /** Consecutive states under moves of one run. */
  ghost predicate Moves(h: Digest, ps: seq<State>, id: string) {
    ps != [] && forall k :: 0 <= k < |ps| - 1 ==> MoveStep(h, ps[k], id, ps[k + 1])
  }

  /** The state reached by one run alone, from the stores `f0` and `r0`. */
  ghost predicate Alone(h: Digest, p: State, f0: Feed.Store, r0: Idempotency.Store, id: string) {
    && id in p.runs && p.runs[id].alive
    && OnCourse(h, p.runs[id].job, p.runs[id].world, p.runs[id].snap)
    && Id(h, p.runs[id].job.intent) == id
    && p.runs[id].world.granted == Idempotency.Free(r0, KeyOf(p, id))
    && p.feed == AppendAll(f0, p.runs[id].snap.recs)
    && p.idem == AfterTrace(r0, h, p.runs[id].job.intent, p.runs[id].snap.trace)
  }

  /** One move of a run alone. */
  function MoveAlone(h: Digest, p: State, id: string): State
    requires id in p.runs && ValidSnap(p.runs[id].job, p.runs[id].snap)
    requires p.runs[id].alive && !p.runs[id].snap.pc.Done?
  {
    p.(runs := p.runs[id := Moved(h, p.runs[id])],
       feed := if Emits(RequestOf(h, p, id)) then Feed.Appended(p.feed, Pending(h, p, id)) else p.feed,
       idem := if RequestOf(h, p, id).AskReserve?
               then Idempotency.Reserved(p.idem, IntentIdOf(h, p, id), KeyOf(p, id)) else p.idem)
  }

  lemma AloneStep(h: Digest, p: State, f0: Feed.Store, r0: Idempotency.Store, id: string)
    requires Alone(h, p, f0, r0, id) && !p.runs[id].snap.pc.Done?
    ensures MoveStep(h, p, id, MoveAlone(h, p, id)) && Alone(h, MoveAlone(h, p, id), f0, r0, id)
  {
    hide Ask, Advance, NextRecord, Finish, Outcome, Feed.Appended, Idempotency.Reserved, Id, AppendAll, Clocked;
    var r := p.runs[id];
    NextFields(h, r.job, r.world, r.snap);
    StayOnCourse(h, r.job, r.world, r.snap);
    OnlyReservingAsks(h, r.job.intent, r.snap.pc);
    if Emits(RequestOf(h, p, id)) {
      AppendAllSnoc(f0, r.snap.recs, Pending(h, p, id));
    }
  }

  /** Left alone, a run moves to completion. */
  lemma {:induction false} RunsToEnd(h: Digest, p: State, f0: Feed.Store, r0: Idempotency.Store, id: string)
    returns (ps: seq<State>)
    requires Alone(h, p, f0, r0, id)
    ensures Moves(h, ps, id) && ps[0] == p
    ensures var last := ps[|ps| - 1];
      && Alone(h, last, f0, r0, id) && last.tombs == p.tombs
      && last.runs == p.runs[id := p.runs[id].(snap := Outcome(h, p.runs[id].job, p.runs[id].world))]
    decreases Stage(p.runs[id].snap.pc), Left(p.runs[id].job.intent, p.runs[id].snap.pc)
  {
    hide Ask, Advance, NextRecord, Finish, Outcome, Feed.Appended, Idempotency.Reserved, Id, AppendAll, Stage, Left,
         MoveStep, Clocked;
    var r := p.runs[id];
    if r.snap.pc.Done? {
      Finished(h, r.job, r.world, r.snap);
      ps := [p];
      assert p.runs == p.runs[id := r.(snap := Outcome(h, r.job, r.world))];
    } else {
      AloneStep(h, p, f0, r0, id);
      Decreases(h, r.job, r.world, r.snap);
      var rest := RunsToEnd(h, MoveAlone(h, p, id), f0, r0, id);
      ps := [p] + rest;
    }
  }

  /** The outcome Authorize is proved to have (its result, its records in the
      feed, its reservation) is reached by moves of the plane from any state,
      with no other run interleaved. */
  lemma AuthorizeIsARun(h: Digest, p: State, job: Job, w: World) returns (ps: seq<State>)
    requires Id(h, job.intent) !in p.runs && WellResolved(job.intent)
    ensures |ps| >= 2 && ps[0] == p
    ensures var id, w' := Id(h, job.intent), Answers(w, p.idem, job.intent.key);
      && StartStep(h, p, id, job, w', ps[1]) && Moves(h, ps[1..], id)
      && var last, s := ps[|ps| - 1], Outcome(h, job, w');
      && id in last.runs && last.runs[id].snap == s
      && last.feed == AppendAll(p.feed, s.recs) && last.idem == AfterTrace(p.idem, h, job.intent, s.trace)
  {
    hide Finish, Id, WellResolved, Ask, Advance, AppendAll, Feed.Appended, MoveStep;
    var id, w' := Id(h, job.intent), Answers(w, p.idem, job.intent.key);
    var p1 := p.(runs := p.runs[id := Run(job, w', START, true)]);
    AloneAtStart(h, p, job, w');
    hide Outcome;
    var rest := RunsToEnd(h, p1, p.feed, p.idem, id);
    ps := [p] + rest;
    assert ps[1..] == rest;
  }

  lemma AloneAtStart(h: Digest, p: State, job: Job, w: World)
    requires Id(h, job.intent) !in p.runs && w == Answers(w, p.idem, job.intent.key)
    ensures var id := Id(h, job.intent);
      Alone(h, p.(runs := p.runs[id := Run(job, w, START, true)]), p.feed, p.idem, id)
  {
    hide Finish, Id;
  }
}
