// Callers over the plane: what a lost response, a 500 and a crash leave them
// to conclude, and why the gated body fires at most once per key.

module Clients {
  import opened Text
  import opened Hashing
  import opened Lifecycle
  import opened FeedRecord
  import opened Gate
  import opened GateInvariant
  import opened GateVerified
  import opened Plane
  import opened PlaneTheorems
  import opened Declarant
  import opened GateClasses
  import Intents
  import Sorting
  import Seqs
  import Feed
  import Idempotency
  import VerifierInput

  // ---------------------------------------------------- the feed consult

  /** What GET /v2/intents/{id}/events serves. */
  function EventsServed(p: State, id: string): seq<Record> { Sorting.Sort(RecordsOf(p, id), Feed.Clock()) }

  lemma ServedInOrder(h: Digest, p: State, id: string)
    requires Inv(h, p) && id in p.runs
    ensures EventsServed(p, id) == RecordsOf(p, id)
    ensures forall k :: 0 <= k < |RecordsOf(p, id)| ==> RecordsOf(p, id)[k].intentSeq == k
  {
    hide RunInv, Feed.Sound, Idempotency.Sound, Seqs.Filter, Intents.Id, Intents.WellResolved, Owned, Sorting.Sort;
    var rs, run := RecordsOf(p, id), p.runs[id];
    assert RunSound(h, p, id, run);
    RunReadable(h, run.job, run.snap, rs);
    assert Sorting.Sorted(rs, Feed.Clock());
    Sorting.SortOfSorted(rs, Feed.Clock());
  }

  lemma LastIsTop(recs: seq<Record>)
    requires recs != [] && forall k :: 0 <= k < |recs| ==> recs[k].intentSeq == k
    ensures Top(recs) == |recs| - 1
  {
    hide Top;
    TopUnique(recs, Top(recs), |recs| - 1);
  }

  /** The 500-edge consult: a completed run is classified as its lost response
      would have been; a run without its last record in the feed decides
      nothing. */
  lemma ConsultDecides(h: Digest, p: State, id: string, code: int)
    requires Inv(h, p) && id in p.runs && code != 200 && code != 400
    ensures var s := p.runs[id].snap;
      Decide(Status(code), Found(EventsServed(p, id))).verdict ==
        if s.pc.Done? then Classify(Name(s.pc.terminal), s.pc.reason) else Verdict(Indeterminate, false)
  {
    hide Feed.Sound, Idempotency.Sound, Owned, Classify, ClassifyRecord, EventsServed, RecordsOf, Top, RunInv,
         Intents.Id, Intents.WellResolved;
    ServedInOrder(h, p, id);
    var rs, run := RecordsOf(p, id), p.runs[id];
    assert RunSound(h, p, id, run);
    if rs != [] {
      LastIsTop(rs);
      LastRecordDecides(h, run, rs);
    } else {
      NoRecordsNotDone(h, run, rs);
    }
  }

  lemma LastRecordDecides(h: Digest, run: Run, rs: seq<Record>)
    requires RunInv(h, run.job, run.snap) && Stamped(rs, run.snap.recs) && rs != []
    ensures var last := rs[|rs| - 1];
      && (run.snap.pc.Done? <==> last.hash != "")
      && (run.snap.pc.Done? ==>
           ClassifyRecord(last.typ, last.detail) == Classify(Name(run.snap.pc.terminal), run.snap.pc.reason))
  {
    hide Classify, ClassifyRecord, Intents.Id, Name, EventsOf, RefusalShape;
    var n := |rs| - 1;
    assert rs[n].(globalSeq := 0) == run.snap.recs[n];
    if run.snap.pc.Done? {
      assert Closing(h, run.job, run.snap.pc, run.snap.recs);
      PathsAgree(h, run.job, run.snap);
    } else {
      assert Interior(h, run.job, run.snap.recs[n]);
    }
  }

  lemma NoRecordsNotDone(h: Digest, run: Run, rs: seq<Record>)
    requires RunInv(h, run.job, run.snap) && Stamped(rs, run.snap.recs) && rs == []
    ensures !run.snap.pc.Done?
  {}

  // ---------------------------------------------------- who owns a reservation

  /** Every reservation belongs to a run with that key which holds it, or which
      died while claiming it. */
  ghost predicate OwnersHold(p: State) {
    forall key :: key in p.idem.reserved ==> Owner(p, p.idem.reserved[key], key)
  }

  ghost predicate Owner(p: State, id: string, key: string) {
    && id in p.runs && KeyOf(p, id) == key
    && (Holds(p.runs[id].snap.pc) || (!p.runs[id].alive && p.runs[id].snap.pc.Reserving?))
  }

  /** A run that holds its key goes on holding it; one at the reservation that
      is granted begins to. */
  lemma HoldsOn(h: Digest, i: Intents.Intent, w: World, pc: Pc)
    requires ValidPc(i, pc)
    ensures Holds(pc) ==> Holds(Advance(i, w, pc))
    ensures pc.Reserving? && w.granted ==> Holds(Advance(i, w, pc))
  {
    hide Say, First, Join, AfterDeclared, AfterAdmission;
  }

  lemma MoveOwners(h: Digest, p: State, id: string, p': State)
    requires Inv(h, p) && OwnersHold(p) && MoveStep(h, p, id, p')
    ensures OwnersHold(p')
  {
    hide Feed.Appended, Idempotency.ReserveWrite, Intents.Id, Stamped, RunInv, Ask, Advance, NextRecord, Holds,
         Feed.Sound, Idempotency.Sound, Owned;
    var r := p.runs[id];
    assert RunSound(h, p, id, r);
    InvValid(h, r);
    HoldsOn(h, r.job.intent, r.world, r.snap.pc);
    MovedInv(h, r);
    Authorization.OnlyReservingAsks(h, r.job.intent, r.snap.pc);
  }

  lemma CrashOwners(h: Digest, p: State, f: Option<InFlight>, i: Option<InFlight>, p': State)
    requires Inv(h, p) && OwnersHold(p) && CrashStep(h, p, f, i, p')
    ensures OwnersHold(p')
  {
    hide CrashStep, Inv, Claiming, Owner;
    CrashReserved(h, p, f, i, p');
    forall key | key in p'.idem.reserved
      ensures Owner(p', p'.idem.reserved[key], key)
    {
      var id := p'.idem.reserved[key];
      if key in p.idem.reserved && p.idem.reserved[key] == id {
        OwnerSurvives(h, p, f, i, p', id, key);
      } else {
        ClaimantDied(h, p, f, i, p', id);
      }
    }
  }

  lemma OwnerSurvives(h: Digest, p: State, f: Option<InFlight>, i: Option<InFlight>, p': State, id: string, key: string)
    requires Inv(h, p) && CrashStep(h, p, f, i, p') && Owner(p, id, key)
    ensures Owner(p', id, key)
  {
    hide Inv, Holds;
    SurvivorHolds(h, p, f, i, p', id);
    SameRuns(h, p, f, i, p');
    hide CrashStep;
  }

  lemma SameRuns(h: Digest, p: State, f: Option<InFlight>, i: Option<InFlight>, p': State)
    requires CrashStep(h, p, f, i, p')
    ensures p'.runs.Keys == p.runs.Keys
  {}

  lemma CrashReserved(h: Digest, p: State, f: Option<InFlight>, i: Option<InFlight>, p': State)
    requires Inv(h, p) && CrashStep(h, p, f, i, p')
    ensures p'.idem.reserved == p.idem.reserved ||
      (i.Some? && Claiming(h, p, i.value) && p'.idem.reserved == p.idem.reserved[KeyOf(p, i.value.id) := i.value.id])
  {
    hide RunsSound, Feed.Sound, Idempotency.ReserveWrite, Idempotency.Recovered, RequestOf, Owned, Feed.Torn,
         Feed.Opened, Feed.FeedWrite, Intents.Id, IntentIdOf, VerifierInput.Legible;
    if i.Some? {
      NamedById(h, p, i.value.id);
      Idempotency.TornSound(p.idem, IntentIdOf(h, p, i.value.id), KeyOf(p, i.value.id), i.value.bytes);
    }
  }

  /** A crash moves no run out of the state in which it holds its key. */
  lemma SurvivorHolds(h: Digest, p: State, f: Option<InFlight>, i: Option<InFlight>, p': State, id: string)
    requires Inv(h, p) && CrashStep(h, p, f, i, p') && id in p.runs
    ensures p'.runs[id].job == p.runs[id].job && !p'.runs[id].alive
    ensures Holds(p.runs[id].snap.pc) ==> Holds(p'.runs[id].snap.pc)
    ensures p.runs[id].snap.pc.Reserving? ==> p'.runs[id].snap == p.runs[id].snap
  {
    hide Feed.Torn, Feed.Opened, Idempotency.Torn, Idempotency.Opened, Intents.Id, Ask, Advance, NextRecord, Holds,
         Feed.Sound, Idempotency.Sound, Owned, Feed.FeedWrite, RunInv, Stamped, Claiming;
    var r := p.runs[id];
    assert RunSound(h, p, id, r);
    InvValid(h, r);
    if f.Some? && f.value.id == id && Landed(h, p, f.value) {
      HoldsOn(h, r.job.intent, r.world, r.snap.pc);
      MovedInv(h, r);
      Authorization.OnlyReservingAsks(h, r.job.intent, r.snap.pc);
    }
  }

  lemma ClaimantDied(h: Digest, p: State, f: Option<InFlight>, i: Option<InFlight>, p': State, id: string)
    requires Inv(h, p) && CrashStep(h, p, f, i, p') && i.Some? && i.value.id == id && Claiming(h, p, i.value)
    ensures id in p'.runs && p'.runs[id].job == p.runs[id].job && Owner(p', id, KeyOf(p, id))
  {
    hide Feed.Torn, Feed.Opened, Idempotency.Torn, Idempotency.Opened, Intents.Id, Ask, NextRecord, Holds,
         Feed.Sound, Idempotency.Sound, Owned, Feed.FeedWrite, RunsSound, Survivor, Landed, FeedWriting;
    Authorization.OnlyReservingAsks(h, p.runs[id].job.intent, p.runs[id].snap.pc);
    SurvivorHolds(h, p, f, i, p', id);
  }

  lemma StepOwners(h: Digest, p: State, e: Event, p': State)
    requires Inv(h, p) && OwnersHold(p) && Step(h, p, e, p')
    ensures OwnersHold(p')
  {
    hide Inv, MoveStep, CrashStep, Intents.Id, Holds;
    match e
    case Start(_, job, world) =>
    case Move(id) => MoveOwners(h, p, id, p');
    case Crash(f, i) => CrashOwners(h, p, f, i, p');
    case Revoke(hash, ref) =>
  }

  lemma {:induction false} ExecutionOwners(h: Digest, ps: seq<State>, es: seq<Event>, k: nat)
    requires Execution(h, ps, es) && k < |ps|
    ensures OwnersHold(ps[k])
    decreases k
  {
    hide Inv, Step, OwnersHold;
    if k == 0 {
      InitOwners();
    } else {
      ExecutionOwners(h, ps, es, k - 1);
      ExecutionInv(h, ps, es, k - 1);
      assert Step(h, ps[k - 1], es[k - 1], ps[k - 1 + 1]);
      StepOwners(h, ps[k - 1], es[k - 1], ps[k]);
    }
  }

  lemma InitOwners()
    ensures OwnersHold(INIT)
  {
    hide Feed.Opened;
    Idempotency.EmptyFile();
  }

  /** When a caller is told, by its response or by the feed, that a retry under
      the same key is safe, that call owns no reservation, whatever else ran
      or crashed meanwhile. */
  lemma SafeRetryOwnsNothing(h: Digest, ps: seq<State>, es: seq<Event>, k: nat, id: string, code: int)
    requires Execution(h, ps, es) && k < |ps| && id in ps[k].runs && code != 200 && code != 400
    requires Decide(Status(code), Found(EventsServed(ps[k], id))).verdict.retrySafe
    ensures forall key :: key in ps[k].idem.reserved ==> ps[k].idem.reserved[key] != id
  {
    hide Execution, Inv, OwnersHold, EventsServed, Decide;
    ExecutionInv(h, ps, es, k);
    ExecutionOwners(h, ps, es, k);
    SafeOwnsNothing(h, ps[k], id, code);
  }

  lemma SafeOwnsNothing(h: Digest, p: State, id: string, code: int)
    requires Inv(h, p) && OwnersHold(p) && id in p.runs && code != 200 && code != 400
    requires Decide(Status(code), Found(EventsServed(p, id))).verdict.retrySafe
    ensures forall key :: key in p.idem.reserved ==> p.idem.reserved[key] != id
  {
    hide Inv, ClassifyFailed, ClassifyAtDispatch, Decide, EventsServed;
    ConsultDecides(h, p, id, code);
    GrantNeverSafe(p.runs[id].snap.pc);
    forall key | key in p.idem.reserved
      ensures p.idem.reserved[key] != id
    {
      assert Owner(p, p.idem.reserved[key], key);
    }
  }

  lemma GrantNeverSafe(pc: Pc)
    requires pc.Done? && Classify(Name(pc.terminal), pc.reason).retrySafe
    ensures !Holds(pc)
  {
    hide ClassifyFailed, ClassifyAtDispatch;
  }

  // ---------------------------------------------------- callers

  /** The plane, the calls whose outcome has reached their caller, and the
      calls whose gated body has run, in order. */
  datatype Callers = Callers(plane: State, answered: set<string>, fired: seq<string>)

  /** What can reach a caller: its own synchronous result, another status
      followed by a feed consult, or nothing at all. */
  datatype Delivery = Answer | Edge(code: int, reachable: bool) | Nothing

  datatype Act = Plane(e: Event) | Deliver(id: string, d: Delivery)

  function Heard(h: Digest, p: State, id: string, d: Delivery): Option<Declarant.Result>
    requires id in p.runs && (d.Answer? ==> p.runs[id].snap.pc.Done?)
  {
    match d
    case Answer =>
      Some(Decide(Reply(Name(p.runs[id].snap.pc.terminal), p.runs[id].snap.pc.reason), Unreachable))
    case Edge(code, reachable) =>
      Some(Decide(Status(code), if reachable then Found(EventsServed(p, IntentIdOf(h, p, id))) else Unreachable))
    case Nothing => None
  }

  /** A call hears at most one outcome. Its synchronous result can only come
      from its completed run, but may arrive late, after the process died and
      a retry began; the body runs only behind the fresh-proceed door. */
  ghost predicate DeliverStep(h: Digest, c: Callers, id: string, d: Delivery, c': Callers) {
    && id in c.plane.runs && id !in c.answered
    && (d.Answer? ==> c.plane.runs[id].snap.pc.Done?)
    && var heard := Heard(h, c.plane, id, d);
    && c' == Callers(c.plane, c.answered + {id},
                   c.fired + (if heard.Some? && FreshProceed(heard.value) then [id] else []))
  }

  ghost predicate CallStep(h: Digest, c: Callers, a: Act, c': Callers) {
    match a
    case Plane(e) => AnyStep(h, c.plane, e, c'.plane) && c' == c.(plane := c'.plane)
    case Deliver(id, d) => DeliverStep(h, c, id, d, c')
  }

  /** Any history of calls and callers, whatever intent ids the calls carry. */
  ghost predicate Traffic(h: Digest, cs: seq<Callers>, acts: seq<Act>) {
    |cs| == |acts| + 1 && cs[0] == Callers(INIT, {}, []) && forall k :: 0 <= k < |acts| ==>
      CallStep(h, cs[k], acts[k], cs[k + 1])
  }

  ghost predicate NamedAct(h: Digest, a: Act) { a.Plane? ==> Named(h, a.e) }

  /** A history in which no two calls share an intent id. */
  ghost predicate Calls(h: Digest, cs: seq<Callers>, acts: seq<Act>) {
    Traffic(h, cs, acts) && forall k :: 0 <= k < |acts| ==> NamedAct(h, acts[k])
  }

  ghost predicate Achieved(p: State, id: string) {
    id in p.runs && p.runs[id].snap.pc.Done? && p.runs[id].snap.pc.terminal == ACHIEVED
  }

  ghost predicate CallInv(h: Digest, c: Callers) {
    && Inv(h, c.plane)
    && (forall k :: 0 <= k < |c.fired| ==> c.fired[k] in c.answered && Achieved(c.plane, c.fired[k]))
    && (forall j, k :: 0 <= j < k < |c.fired| ==> c.fired[j] != c.fired[k])
  }

  /** A finished run stays as it is. */
  lemma FinishedStays(h: Digest, p: State, e: Event, p': State, id: string)
    requires AnyStep(h, p, e, p') && id in p.runs && p.runs[id].snap.pc.Done?
    ensures id in p'.runs && p'.runs[id].snap == p.runs[id].snap && p'.runs[id].job == p.runs[id].job
  {
    hide AnyStep;
    StepContinues(h, p, e, p');
  }

  lemma DeliverInv(h: Digest, c: Callers, id: string, d: Delivery, c': Callers)
    requires CallInv(h, c) && DeliverStep(h, c, id, d, c')
    ensures CallInv(h, c')
  {
    hide Inv, Decide, FreshProceed, EventsServed, Name;
    var heard := Heard(h, c.plane, id, d);
    if heard.Some? && FreshProceed(heard.value) {
      DoorOpens(h, c.plane, id, d);
    }
  }

  /** Only an ACHIEVED of the call's own run opens the door. */
  lemma DoorOpens(h: Digest, p: State, id: string, d: Delivery)
    requires id in p.runs && (d.Answer? ==> p.runs[id].snap.pc.Done?)
    requires Heard(h, p, id, d).Some? && FreshProceed(Heard(h, p, id, d).value)
    ensures Achieved(p, id)
  {
    hide Decide, FreshProceed, EventsServed, Name;
    if d.Answer? {
      OnlyReplyProceeds(Reply(Name(p.runs[id].snap.pc.terminal), p.runs[id].snap.pc.reason), Unreachable);
      KindTypes(p.runs[id].snap.pc.terminal);
    } else {
      var served := EventsServed(p, IntentIdOf(h, p, id));
      OnlyReplyProceeds(Status(d.code), if d.reachable then Found(served) else Unreachable);
    }
  }

  lemma CallStepInv(h: Digest, c: Callers, a: Act, c': Callers)
    requires CallInv(h, c) && CallStep(h, c, a, c') && NamedAct(h, a)
    ensures CallInv(h, c')
  {
    hide Inv, AnyStep, DeliverStep;
    match a
    case Plane(e) =>
      StepInv(h, c.plane, e, c'.plane);
      forall k | 0 <= k < |c'.fired|
        ensures c'.fired[k] in c'.answered && Achieved(c'.plane, c'.fired[k])
      {
        FinishedStays(h, c.plane, e, c'.plane, c.fired[k]);
      }
    case Deliver(id, d) => DeliverInv(h, c, id, d, c');
  }

  lemma {:induction false} CallsInv(h: Digest, cs: seq<Callers>, acts: seq<Act>, k: nat)
    requires Calls(h, cs, acts) && k < |cs|
    ensures CallInv(h, cs[k])
    decreases k
  {
    hide CallInv, CallStep;
    if k == 0 {
      StartCalls(h);
    } else {
      CallsInv(h, cs, acts, k - 1);
      assert CallStep(h, cs[k - 1], acts[k - 1], cs[k - 1 + 1]) && NamedAct(h, acts[k - 1]);
      CallStepInv(h, cs[k - 1], acts[k - 1], cs[k]);
    }
  }

  lemma StartCalls(h: Digest)
    ensures CallInv(h, Callers(INIT, {}, []))
  {
    hide Inv;
    InitInv(h);
  }

  /** The feed position of an achieved run's grant. */
  lemma GrantOf(h: Digest, p: State, id: string) returns (k: nat)
    requires Inv(h, p) && Achieved(p, id)
    ensures IsGrant(p, k) && p.feed.records[k].intentId == id && p.feed.records[k].key == KeyOf(p, id)
  {
    hide Feed.Sound, Idempotency.Sound, Owned, RunInv, Stamped, Intents.Id, Seqs.Filter, Intents.WellResolved;
    var run, rs := p.runs[id], RecordsOf(p, id);
    assert RunSound(h, p, id, run);
    GrantLast(h, run, rs);
    var r := rs[|rs| - 1];
    Seqs.FilterMembers(p.feed.records, Feed.OfIntent(id));
    assert r in rs;
    k :| 0 <= k < |p.feed.records| && p.feed.records[k] == r;
  }

  lemma GrantLast(h: Digest, run: Run, rs: seq<Record>)
    requires RunInv(h, run.job, run.snap) && Stamped(rs, run.snap.recs)
    requires run.snap.pc.Done? && run.snap.pc.terminal == ACHIEVED
    ensures rs != [] && rs[|rs| - 1].typ == "ACHIEVED" && rs[|rs| - 1].key == run.job.intent.key
  {
    hide Intents.Id, EventsOf, RefusalShape;
    var n := |run.snap.recs| - 1;
    assert Closing(h, run.job, run.snap.pc, run.snap.recs);
    assert rs[n].(globalSeq := 0) == run.snap.recs[n];
  }

  lemma SameGrant(h: Digest, p: State, a: string, b: string)
    requires Inv(h, p) && Achieved(p, a) && Achieved(p, b) && KeyOf(p, a) == KeyOf(p, b)
    ensures a == b
  {
    hide Inv, IsGrant, Achieved;
    var j := GrantOf(h, p, a);
    var k := GrantOf(h, p, b);
    if j < k {
      OneGrantPerKey(h, p, j, k);
    } else if k < j {
      OneGrantPerKey(h, p, k, j);
    }
  }

  /** The feed holds an ACHIEVED record of this call under its key. */
  ghost predicate Recorded(p: State, id: string) {
    id in p.runs &&
    exists r :: r in p.feed.records && r.typ == "ACHIEVED" && r.intentId == id && r.key == KeyOf(p, id)
  }

  ghost predicate DifferentKeys(p: State, a: string, b: string) {
    a in p.runs && b in p.runs && KeyOf(p, a) != KeyOf(p, b)
  }

  /** End to end: over any number of callers, retries, lost responses, 500s and
      gate restarts, the gated body fires at most once per key, and each firing
      has a durable ACHIEVED record with that key, reserved by that call. */
  lemma FiresAtMostOnce(h: Digest, cs: seq<Callers>, acts: seq<Act>, n: nat)
    requires Calls(h, cs, acts) && n < |cs|
    ensures forall id :: id in cs[n].fired ==> Achieved(cs[n].plane, id) && Recorded(cs[n].plane, id)
    ensures forall j, k :: 0 <= j < k < |cs[n].fired| ==> DifferentKeys(cs[n].plane, cs[n].fired[j], cs[n].fired[k])
  {
    hide Calls, Inv;
    CallsInv(h, cs, acts, n);
    var p, fired := cs[n].plane, cs[n].fired;
    forall j, k | 0 <= j < k < |fired|
      ensures DifferentKeys(p, fired[j], fired[k])
    {
      if KeyOf(p, fired[j]) == KeyOf(p, fired[k]) {
        SameGrant(h, p, fired[j], fired[k]);
      }
    }
    forall id | id in fired
      ensures Achieved(p, id) && Recorded(p, id)
    {
      var k :| 0 <= k < |fired| && fired[k] == id;
      var at := GrantOf(h, p, id);
      assert p.feed.records[at] in p.feed.records;
    }
  }
}
