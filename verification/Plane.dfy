// The plane as a step system: any number of authorizations in flight, one
// feed and one reservation file between them, and crashes at any byte.

module Plane {
  import opened Text
  import opened Hashing
  import opened Intents
  import opened Lifecycle
  import opened FeedRecord
  import opened Gate
  import opened GateInvariant
  import opened GateVerified
  import opened Seqs
  import VI = VerifierInput
  import Feed
  import Idempotency

  /** One call of Authorize. Calls go by names of their own; what they declare
      is arbitrary, intent ids included. `world` holds the answers it will be given; a dead
      run was in flight when the process crashed. */
  datatype Run = Run(job: Job, world: World, snap: Snap, alive: bool)

  datatype State = State(feed: Feed.Store, idem: Idempotency.Store, runs: map<string, Run>, tombs: map<string, string>)

  const INIT := State(Feed.Opened(""), Idempotency.Opened(""), map[], map[])

  /** A write under way when the process dies: whose, and how many of its bytes
      reached the disk. */
  datatype InFlight = InFlight(id: string, bytes: nat)

  datatype Event =
    | Start(name: string, job: Job, world: World)
    | Move(id: string)
    | Crash(feedWrite: Option<InFlight>, idemWrite: Option<InFlight>)
    | Revoke(hash: string, ref: string)

  ghost predicate Running(h: Digest, p: State, id: string) {
    && id in p.runs && p.runs[id].alive && !p.runs[id].snap.pc.Done?
    && ValidSnap(p.runs[id].job, p.runs[id].snap)
  }

  function RequestOf(h: Digest, p: State, id: string): Request
    requires Running(h, p, id)
  {
    Ask(h, p.runs[id].job.intent, p.runs[id].snap.pc)
  }

  function KeyOf(p: State, id: string): string
    requires id in p.runs
  {
    p.runs[id].job.intent.key
  }

  function IntentIdOf(h: Digest, p: State, id: string): string
    requires id in p.runs
  {
    Id(h, p.runs[id].job.intent)
  }

  /** The record the run is about to append. */
  function Pending(h: Digest, p: State, id: string): Record
    requires Running(h, p, id) && Emits(RequestOf(h, p, id))
  {
    NextRecord(h, p.runs[id].job, p.runs[id].snap)
  }

  function Moved(h: Digest, r: Run): Run
    requires ValidSnap(r.job, r.snap)
  {
    r.(snap := Next(h, r.job, r.world, r.snap))
  }

  /** One atomic step of one run: its append, its reservation (which the store
      answers), or a consult that changes no shared state. */
  ghost predicate MoveStep(h: Digest, p: State, id: string, p': State) {
    && Running(h, p, id)
    && p' == p.(
         runs := p.runs[id := Moved(h, p.runs[id])],
         feed := if Emits(RequestOf(h, p, id)) then Feed.Appended(p.feed, Pending(h, p, id)) else p.feed,
         idem := if RequestOf(h, p, id).AskReserve?
                 then Idempotency.Reserved(p.idem, IntentIdOf(h, p, id), KeyOf(p, id)) else p.idem)
    && (RequestOf(h, p, id).AskReserve? ==> p.runs[id].world.granted == Idempotency.Free(p.idem, KeyOf(p, id)))
  }

  ghost predicate StartStep(h: Digest, p: State, name: string, job: Job, world: World, p': State) {
    && name !in p.runs && WellResolved(job.intent)
    && p' == p.(runs := p.runs[name := Run(job, world, START, true)])
  }

  // ---------------------------------------------------- crashes

  ghost predicate FeedWriting(h: Digest, p: State, w: InFlight) {
    && Running(h, p, w.id) && Emits(RequestOf(h, p, w.id))
    && w.bytes <= |Feed.FeedWrite(p.feed, Pending(h, p, w.id))|
  }

  ghost predicate Claiming(h: Digest, p: State, w: InFlight) {
    && Running(h, p, w.id) && RequestOf(h, p, w.id).AskReserve? && Idempotency.Free(p.idem, KeyOf(p, w.id))
    && w.bytes <= |Idempotency.ReserveWrite(p.idem, Idempotency.Entry(KeyOf(p, w.id), IntentIdOf(h, p, w.id)))|
  }

  /** The whole line is on disk, with or without its newline. */
  ghost predicate Landed(h: Digest, p: State, w: InFlight)
    requires FeedWriting(h, p, w)
  {
    w.bytes >= |Feed.FeedWrite(p.feed, Pending(h, p, w.id))| - 1
  }

  /** What a crash leaves of a run; the one whose record landed has moved. */
  ghost function Survivor(h: Digest, p: State, feedWrite: Option<InFlight>, id: string): Run
    requires id in p.runs
    requires feedWrite.Some? ==> FeedWriting(h, p, feedWrite.value)
  {
    if feedWrite.Some? && feedWrite.value.id == id && Landed(h, p, feedWrite.value)
    then Moved(h, p.runs[id]).(alive := false)
    else p.runs[id].(alive := false)
  }

  ghost predicate CrashStep(h: Digest, p: State, feedWrite: Option<InFlight>, idemWrite: Option<InFlight>, p': State) {
    && (feedWrite.Some? ==> FeedWriting(h, p, feedWrite.value))
    && (idemWrite.Some? ==> Claiming(h, p, idemWrite.value))
    && p'.tombs == p.tombs
    && p'.feed == (match feedWrite
         case None => Feed.Opened(p.feed.disk)
         case Some(w) => Feed.Torn(p.feed, Pending(h, p, w.id), w.bytes))
    && p'.idem == (match idemWrite
         case None => Idempotency.Opened(p.idem.disk)
         case Some(w) => Idempotency.Torn(p.idem, IntentIdOf(h, p, w.id), KeyOf(p, w.id), w.bytes))
    && p'.runs.Keys == p.runs.Keys
    && forall id :: id in p.runs ==> p'.runs[id] == Survivor(h, p, feedWrite, id)
  }

  ghost predicate AnyStep(h: Digest, p: State, e: Event, p': State) {
    match e
    case Start(name, job, world) => StartStep(h, p, name, job, world, p')
    case Move(id) => MoveStep(h, p, id, p')
    case Crash(f, i) => CrashStep(h, p, f, i, p')
    case Revoke(hash, ref) => p' == p.(tombs := p.tombs[hash := ref])
  }

  /** The call goes by its intent id, so no two calls share one. What the
      verifiers and the feed consult conclude needs this. */
  predicate Named(h: Digest, e: Event) { e.Start? ==> e.name == Id(h, e.job.intent) }

  ghost predicate Step(h: Digest, p: State, e: Event, p': State) { AnyStep(h, p, e, p') && Named(h, e) }

  /** An execution from empty files. */
  ghost predicate Execution(h: Digest, ps: seq<State>, es: seq<Event>) {
    |ps| == |es| + 1 && ps[0] == INIT && forall k :: 0 <= k < |es| ==> Step(h, ps[k], es[k], ps[k + 1])
  }

  // ---------------------------------------------------- the invariant

  function RecordsOf(p: State, id: string): seq<Record> { Filter(p.feed.records, Feed.OfIntent(id)) }

  /** The run has claimed its key. */
  predicate Holds(pc: Pc) { pc.Granting? || pc.Achieving? || (pc.Done? && pc.terminal == ACHIEVED) }

  /** One run: its own invariant, its records in the feed, its reservation. */
  ghost predicate RunSound(h: Digest, p: State, id: string, r: Run) {
    && Id(h, r.job.intent) == id && WellResolved(r.job.intent)
    && RunInv(h, r.job, r.snap)
    && Stamped(RecordsOf(p, id), r.snap.recs)
    && (Holds(r.snap.pc) ==> r.job.intent.key in p.idem.reserved && p.idem.reserved[r.job.intent.key] == id)
  }

  ghost predicate RunsSound(h: Digest, p: State) {
    forall id :: id in p.runs ==> RunSound(h, p, id, p.runs[id])
  }

  /** Every record in the feed belongs to a run. */
  ghost predicate Owned(p: State) { forall k :: 0 <= k < |p.feed.records| ==> p.feed.records[k].intentId in p.runs }

  ghost predicate Inv(h: Digest, p: State) {
    && Feed.Sound(p.feed) && VI.Legible(p.feed) && Idempotency.Sound(p.idem)
    && RunsSound(h, p) && Owned(p)
  }

  lemma NamedById(h: Digest, p: State, id: string)
    requires Inv(h, p) && id in p.runs
    ensures IntentIdOf(h, p, id) == id
  {
    hide RunInv, WellResolved, Id, VI.Legible, Feed.Sound, Idempotency.Sound, RecordsOf, Stamped;
    assert RunSound(h, p, id, p.runs[id]);
  }

  // ---------------------------------------------------- how the parts change

  /** The feed either stayed or gained one record of the run `id`. */
  ghost predicate FeedGains(before: Feed.Store, after: Feed.Store, gained: Option<Record>) {
    after.records == before.records + (if gained.Some? then [Feed.Stamp(before, gained.value)] else [])
  }

  lemma RecordsAfter(p: State, p': State, gained: Option<Record>, id: string)
    requires FeedGains(p.feed, p'.feed, gained)
    ensures RecordsOf(p', id) ==
            RecordsOf(p, id) +
            (if gained.Some? && gained.value.intentId == id then [Feed.Stamp(p.feed, gained.value)] else [])
  {
    hide Filter;
    if gained.Some? {
      FilterSnoc(p.feed.records, Feed.Stamp(p.feed, gained.value), Feed.OfIntent(id));
    } else {
      assert p'.feed.records == p.feed.records;
      assert RecordsOf(p, id) + [] == RecordsOf(p, id);
    }
  }

  lemma StampedSnoc(rs: seq<Record>, recs: seq<Record>, s: Feed.Store, r: Record)
    requires Stamped(rs, recs) && s.globalSeq >= 0 && r.globalSeq == 0
    ensures Stamped(rs + [Feed.Stamp(s, r)], recs + [r])
  {
    assert Feed.Stamp(s, r).(globalSeq := 0) == r;
  }

  /** The record a run appends is its own and can be read back. */
  lemma PendingReadable(h: Digest, p: State, id: string)
    requires Inv(h, p) && Running(h, p, id) && Emits(RequestOf(h, p, id))
    ensures Pending(h, p, id).intentId == id && Pending(h, p, id).globalSeq == 0
    ensures VI.Readable(Feed.Stamp(p.feed, Pending(h, p, id)))
    ensures p.feed.globalSeq == |p.feed.records|
  {
    hide Ask, Name, RunInv, VI.Legible, Feed.Recovered, EventsOf, Mirror;
    assert RunSound(h, p, id, p.runs[id]);
    Feed.MaxOfNumbered(p.feed.records);
    KindTypes(RequestOf(h, p, id).kind);
  }

  lemma MovedInv(h: Digest, r: Run)
    requires RunInv(h, r.job, r.snap) && !r.snap.pc.Done?
    ensures RunInv(h, r.job, Moved(h, r).snap) && NeverRefusesWithGrant(r.snap.pc)
    ensures Moved(h, r).snap.pc == Advance(r.job.intent, r.world, r.snap.pc)
    ensures Moved(h, r).snap.recs == r.snap.recs +
            (if Emits(Ask(h, r.job.intent, r.snap.pc)) then [NextRecord(h, r.job, r.snap)] else [])
  {
    hide RunInv, Ask, Advance, NextRecord;
    InvValid(h, r);
    NextInv(h, r.job, r.world, r.snap);
  }

  predicate NeverRefusesWithGrant(pc: Pc) { pc.Refusing? ==> pc.kind != ACHIEVED }

  lemma InvValid(h: Digest, r: Run)
    requires RunInv(h, r.job, r.snap)
    ensures ValidSnap(r.job, r.snap) && NeverRefusesWithGrant(r.snap.pc)
  {
    hide Say;
  }

  /** Only a granted reservation makes a run hold its key. */
  lemma HoldsNext(h: Digest, i: Intent, w: World, pc: Pc)
    requires ValidPc(i, pc) && NeverRefusesWithGrant(pc)
    ensures Holds(Advance(i, w, pc)) ==> Holds(pc) || (Ask(h, i, pc).AskReserve? && w.granted)
  {
    hide Say, First, Join, AfterDeclared, AfterAdmission, Id, ScoreText;
    ChecksContinue(i);
    ChecksHoldNothing(i);
  }

  lemma ChecksHoldNothing(i: Intent)
    ensures !Holds(AfterDeclared(i)) && !Holds(AfterAdmission(i))
  {
    hide Say, First, Misspelled;
  }

  /** Reservations only grow, and no key changes its owner. */
  ghost predicate Grew(before: map<string, string>, after: map<string, string>) {
    forall key :: key in before ==> key in after && after[key] == before[key]
  }

  /** A run that did not move is as sound as before once the feed has gained a
      record of another run and the reservations have grown. */
  lemma Unmoved(h: Digest, p: State, p': State, id: string, gained: Option<Record>, r: Run)
    requires id in p.runs && RunSound(h, p, id, p.runs[id])
    requires FeedGains(p.feed, p'.feed, gained) && (gained.Some? ==> gained.value.intentId != id)
    requires Grew(p.idem.reserved, p'.idem.reserved)
    requires r == p.runs[id].(alive := r.alive)
    ensures RunSound(h, p', id, r)
  {
    hide RunInv, Stamped, RecordsOf, WellResolved, Id;
    RecordsAfter(p, p', gained, id);
    assert RecordsOf(p, id) + [] == RecordsOf(p, id);
  }

  /** A run that appended one record. */
  lemma MovedByAppend(h: Digest, p: State, p': State, id: string, r: Run)
    requires Inv(h, p) && Running(h, p, id) && Emits(RequestOf(h, p, id))
    requires FeedGains(p.feed, p'.feed, Some(Pending(h, p, id)))
    requires Grew(p.idem.reserved, p'.idem.reserved)
    requires r == Moved(h, p.runs[id]).(alive := r.alive)
    ensures RunSound(h, p', id, r)
  {
    hide RunInv, Stamped, RecordsOf, WellResolved, Id, Ask, Advance, NextRecord, VI.Legible, Feed.Sound,
         Idempotency.Sound, Feed.Stamp, VI.Readable;
    var run := p.runs[id];
    assert RunSound(h, p, id, run);
    PendingReadable(h, p, id);
    MovedInv(h, run);
    HoldsNext(h, run.job.intent, run.world, run.snap.pc);
    RecordsAfter(p, p', Some(Pending(h, p, id)), id);
    StampedSnoc(RecordsOf(p, id), run.snap.recs, p.feed, Pending(h, p, id));
  }

  /** A run that consulted something, or reserved its key. */
  lemma MovedInPlace(h: Digest, p: State, p': State, id: string)
    requires Inv(h, p) && MoveStep(h, p, id, p') && !Emits(RequestOf(h, p, id))
    ensures RunSound(h, p', id, p'.runs[id])
  {
    hide RunInv, Stamped, WellResolved, Id, Ask, Advance, NextRecord, VI.Legible, Feed.Sound, Idempotency.Sound,
         Filter, Idempotency.ReserveWrite;
    var run := p.runs[id];
    assert RunSound(h, p, id, run);
    MovedInv(h, run);
    HoldsNext(h, run.job.intent, run.world, run.snap.pc);
  }

  lemma ReservedGrew(s: Idempotency.Store, id: string, key: string)
    ensures Grew(s.reserved, Idempotency.Reserved(s, id, key).reserved)
  {
    hide Idempotency.ReserveWrite;
  }

  lemma Unchanged(p: State, p': State)
    requires p'.feed.records == p.feed.records
    ensures FeedGains(p.feed, p'.feed, None)
  {}

  // ---------------------------------------------------- every step keeps it

  lemma StartInv(h: Digest, p: State, job: Job, world: World, p': State)
    requires Inv(h, p) && StartStep(h, p, Id(h, job.intent), job, world, p')
    ensures Inv(h, p')
  {
    hide RunInv, WellResolved, Id, VI.Legible, Feed.Sound, Idempotency.Sound, Filter;
    var id := Id(h, job.intent);
    GateInvariant.StartInv(h, job);
    forall other | other in p'.runs
      ensures RunSound(h, p', other, p'.runs[other])
    {
      if other == id {
        FilterNone(p.feed.records, Feed.OfIntent(id));
      } else {
        assert RunSound(h, p, other, p.runs[other]);
      }
    }
  }

  lemma MoveInv(h: Digest, p: State, id: string, p': State)
    requires Inv(h, p) && MoveStep(h, p, id, p')
    ensures Inv(h, p') && Grew(p.idem.reserved, p'.idem.reserved)
  {
    hide RunSound, VI.Legible, Feed.Sound, Idempotency.Sound, Feed.Appended, Idempotency.Reserved, RequestOf, Pending;
    ReservedGrew(p.idem, IntentIdOf(h, p, id), KeyOf(p, id));
    Idempotency.ReserveSound(p.idem, IntentIdOf(h, p, id), KeyOf(p, id));
    if Emits(RequestOf(h, p, id)) {
      AppendMoves(h, p, id, p');
    } else {
      Unchanged(p, p');
      MovedInPlace(h, p, p', id);
      forall other | other in p'.runs
        ensures RunSound(h, p', other, p'.runs[other])
      {
        if other != id {
          Unmoved(h, p, p', other, None, p'.runs[other]);
        }
      }
    }
  }

  lemma AppendMoves(h: Digest, p: State, id: string, p': State)
    requires Inv(h, p) && MoveStep(h, p, id, p') && Emits(RequestOf(h, p, id))
    ensures Inv(h, p')
  {
    hide RunSound, VI.Legible, Feed.Sound, Idempotency.Sound, Feed.Appended, RequestOf, Pending, VI.Readable;
    var r := Pending(h, p, id);
    PendingReadable(h, p, id);
    Feed.AppendSound(p.feed, r);
    VI.AppendLegible(p.feed, r);
    AppendGains(p.feed, r);
    MovedByAppend(h, p, p', id, p'.runs[id]);
    forall other | other in p'.runs
      ensures RunSound(h, p', other, p'.runs[other])
    {
      if other != id {
        Unmoved(h, p, p', other, Some(r), p'.runs[other]);
      }
    }
    OwnedAfter(p, p', Some(r));
  }

  lemma AppendGains(s: Feed.Store, r: Record)
    ensures FeedGains(s, Feed.Appended(s, r), Some(r))
  {
    hide Feed.FeedWrite, Feed.Stamp;
  }

  lemma OwnedAfter(p: State, p': State, gained: Option<Record>)
    requires Owned(p) && FeedGains(p.feed, p'.feed, gained) && p'.runs.Keys == p.runs.Keys
    requires gained.Some? ==> gained.value.intentId in p.runs
    ensures Owned(p')
  {
    forall k | 0 <= k < |p'.feed.records|
      ensures p'.feed.records[k].intentId in p'.runs
    {
      if k < |p.feed.records| {
        assert p'.feed.records[k] == p.feed.records[k];
      }
    }
  }

  /** The record that landed in a crash, if one did. */
  ghost function Gained(h: Digest, p: State, feedWrite: Option<InFlight>): Option<Record>
    requires feedWrite.Some? ==> FeedWriting(h, p, feedWrite.value)
  {
    if feedWrite.Some? && Landed(h, p, feedWrite.value) then Some(Pending(h, p, feedWrite.value.id)) else None
  }

  /** After a crash the feed is sound, with the landed record if one landed. */
  lemma CrashFeed(h: Digest, p: State, feedWrite: Option<InFlight>, idemWrite: Option<InFlight>, p': State)
    requires Feed.Sound(p.feed) && CrashStep(h, p, feedWrite, idemWrite, p')
    ensures Feed.Sound(p'.feed) && FeedGains(p.feed, p'.feed, Gained(h, p, feedWrite))
  {
    hide Idempotency.Torn, Idempotency.Opened, RequestOf, Pending, Feed.FeedWrite, Idempotency.ReserveWrite,
         Feed.Recovered, IntentIdOf, ValidSnap, Survivor, Claiming;
    Feed.MaxOfNumbered(p.feed.records);
    if feedWrite.Some? {
      Feed.TornSound(p.feed, Pending(h, p, feedWrite.value.id), feedWrite.value.bytes);
    } else {
      Feed.OpenedSound(p.feed);
    }
  }

  /** And still legible. */
  lemma CrashLegible(h: Digest, p: State, feedWrite: Option<InFlight>, idemWrite: Option<InFlight>, p': State)
    requires Inv(h, p) && CrashStep(h, p, feedWrite, idemWrite, p')
    ensures VI.Legible(p'.feed)
  {
    hide RunsSound, VI.Legible, Idempotency.Sound, Feed.FeedWrite, VI.Readable, RequestOf, Pending, Feed.Sound,
         Feed.Torn, Feed.Opened, Idempotency.Torn, Idempotency.Opened, Survivor, Claiming, ValidSnap;
    if feedWrite.Some? {
      var w := feedWrite.value;
      PendingReadable(h, p, w.id);
      VI.TornLegible(p.feed, Pending(h, p, w.id), w.bytes);
    } else {
      Feed.OpenedSound(p.feed);
    }
  }

  /** After a crash the reservations are sound, and none was lost. */
  lemma CrashIdem(h: Digest, p: State, feedWrite: Option<InFlight>, idemWrite: Option<InFlight>, p': State)
    requires Idempotency.Sound(p.idem) && CrashStep(h, p, feedWrite, idemWrite, p')
    ensures Idempotency.Sound(p'.idem) && Grew(p.idem.reserved, p'.idem.reserved)
  {
    hide Feed.Torn, Feed.Opened, RequestOf, Pending, Feed.FeedWrite, Idempotency.ReserveWrite, Idempotency.Recovered,
         IntentIdOf, ValidSnap, Survivor, FeedWriting;
    if idemWrite.Some? {
      var w := idemWrite.value;
      Idempotency.TornSound(p.idem, IntentIdOf(h, p, w.id), KeyOf(p, w.id), w.bytes);
    }
  }

  /** Every call is there with its job, and finished ones are as they were. */
  ghost predicate Continues(p: State, p': State) {
    forall c :: c in p.runs ==>
      c in p'.runs && p'.runs[c].job == p.runs[c].job && (p.runs[c].snap.pc.Done? ==> p'.runs[c].snap == p.runs[c].snap)
  }

  lemma MoveContinues(h: Digest, p: State, c: string, p': State)
    requires MoveStep(h, p, c, p')
    ensures Continues(p, p') && p'.runs.Keys == p.runs.Keys
    ensures p'.runs[c].snap == Moved(h, p.runs[c]).snap
    ensures forall d :: d in p.runs && d != c ==> p'.runs[d] == p.runs[d]
  {
    hide Feed.Appended, Idempotency.Reserved, Next, RequestOf, Pending, Idempotency.Free, ValidSnap, IntentIdOf;
  }

  lemma CrashContinues(h: Digest, p: State, f: Option<InFlight>, i: Option<InFlight>, p': State)
    requires CrashStep(h, p, f, i, p')
    ensures f.Some? ==> FeedWriting(h, p, f.value)
    ensures Continues(p, p') && p'.runs.Keys == p.runs.Keys
    ensures f.Some? && Landed(h, p, f.value) ==> p'.runs[f.value.id].snap == Moved(h, p.runs[f.value.id]).snap
    ensures forall d :: d in p.runs && !(f.Some? && d == f.value.id && Landed(h, p, f.value)) ==>
      p'.runs[d].snap == p.runs[d].snap
  {
    hide Feed.Torn, Feed.Opened, Idempotency.Torn, Idempotency.Opened, Next, RequestOf, Pending, Feed.FeedWrite,
         Idempotency.ReserveWrite, ValidSnap, IntentIdOf, Landed;
  }

  lemma StepContinues(h: Digest, p: State, e: Event, p': State)
    requires AnyStep(h, p, e, p')
    ensures Continues(p, p')
  {
    hide MoveStep, CrashStep, WellResolved;
    match e
    case Start(_, _, _) =>
    case Move(c) => MoveContinues(h, p, c, p');
    case Crash(f, i) => CrashContinues(h, p, f, i, p');
    case Revoke(_, _) =>
  }

  lemma CrashInv(h: Digest, p: State, feedWrite: Option<InFlight>, idemWrite: Option<InFlight>, p': State)
    requires Inv(h, p) && CrashStep(h, p, feedWrite, idemWrite, p')
    ensures Inv(h, p') && Grew(p.idem.reserved, p'.idem.reserved)
  {
    hide CrashStep, RunsSound, VI.Legible, Feed.Sound, Idempotency.Sound, FeedGains, Grew, Landed, RequestOf, Pending,
         Owned, FeedWriting;
    CrashContinues(h, p, feedWrite, idemWrite, p');
    CrashFeed(h, p, feedWrite, idemWrite, p');
    CrashLegible(h, p, feedWrite, idemWrite, p');
    CrashIdem(h, p, feedWrite, idemWrite, p');
    CrashRuns(h, p, feedWrite, idemWrite, p');
    GainedOwned(h, p, feedWrite);
    OwnedAfter(p, p', Gained(h, p, feedWrite));
  }

  lemma GainedOwned(h: Digest, p: State, feedWrite: Option<InFlight>)
    requires Inv(h, p) && (feedWrite.Some? ==> FeedWriting(h, p, feedWrite.value))
    ensures feedWrite.Some? ==> feedWrite.value.id in p.runs
    ensures var gained := Gained(h, p, feedWrite); gained.Some? ==> gained.value.intentId == feedWrite.value.id
  {
    hide Inv, RequestOf, Pending, Landed;
    if feedWrite.Some? {
      PendingReadable(h, p, feedWrite.value.id);
    }
  }

  lemma CrashRuns(h: Digest, p: State, feedWrite: Option<InFlight>, idemWrite: Option<InFlight>, p': State)
    requires Inv(h, p) && CrashStep(h, p, feedWrite, idemWrite, p')
    ensures RunsSound(h, p')
  {
    SoundParts(h, p);
    CrashContinues(h, p, feedWrite, idemWrite, p');
    CrashFeed(h, p, feedWrite, idemWrite, p');
    CrashIdem(h, p, feedWrite, idemWrite, p');
    hide Inv, CrashStep, RunSound, Continues, Landed, Moved, FeedGains, Grew, Gained, FeedWriting, Feed.Sound,
         Idempotency.Sound;
    forall id | id in p'.runs
      ensures RunSound(h, p', id, p'.runs[id])
    {
      CrashRun(h, p, feedWrite, idemWrite, p', id);
      OneSurvives(h, p, feedWrite, p', id);
    }
  }

  lemma SoundParts(h: Digest, p: State)
    requires Inv(h, p)
    ensures Feed.Sound(p.feed) && Idempotency.Sound(p.idem)
    ensures forall id :: id in p.runs ==> RunSound(h, p, id, p.runs[id])
  {
    hide RunSound, Feed.Sound, Idempotency.Sound, VI.Legible;
  }

  lemma CrashRun(h: Digest, p: State, f: Option<InFlight>, i: Option<InFlight>, p': State, id: string)
    requires CrashStep(h, p, f, i, p') && id in p.runs
    ensures id in p'.runs && p'.runs[id] == Survivor(h, p, f, id)
  {
    hide Survivor, Feed.Torn, Feed.Opened, Idempotency.Torn, Idempotency.Opened, FeedWriting, Claiming;
  }

  lemma OneSurvives(h: Digest, p: State, feedWrite: Option<InFlight>, p': State, id: string)
    requires Inv(h, p) && id in p.runs && id in p'.runs && (feedWrite.Some? ==> FeedWriting(h, p, feedWrite.value))
    requires FeedGains(p.feed, p'.feed, Gained(h, p, feedWrite)) && Grew(p.idem.reserved, p'.idem.reserved)
    requires p'.runs[id] == Survivor(h, p, feedWrite, id)
    ensures RunSound(h, p', id, p'.runs[id])
  {
    GainedOwned(h, p, feedWrite);
    SoundParts(h, p);
    hide Inv, RunSound, RequestOf, Pending, FeedGains, Grew, Landed, Moved, Feed.Sound, Idempotency.Sound;
    var gained := Gained(h, p, feedWrite);
    if gained.Some? && feedWrite.value.id == id {
      MovedByAppend(h, p, p', id, p'.runs[id]);
    } else {
      Unmoved(h, p, p', id, gained, p'.runs[id]);
    }
  }

  lemma InitInv(h: Digest)
    ensures Inv(h, INIT)
  {
    hide VI.Legible;
    Feed.EmptySound();
    VI.EmptyLegible();
  }

  lemma RevokeInv(h: Digest, p: State, p': State)
    requires Inv(h, p) && p' == p.(tombs := p'.tombs)
    ensures Inv(h, p')
  {
    hide RunInv, VI.Legible, Feed.Sound, Idempotency.Sound, Stamped, WellResolved, Id, Filter;
    forall id | id in p'.runs
      ensures RunSound(h, p', id, p'.runs[id])
    {
      assert RunSound(h, p, id, p.runs[id]);
    }
  }

  /** Every step of the plane, crashes included, keeps the invariant and loses
      no reservation. */
  lemma StepInv(h: Digest, p: State, e: Event, p': State)
    requires Inv(h, p) && Step(h, p, e, p')
    ensures Inv(h, p') && Grew(p.idem.reserved, p'.idem.reserved)
  {
    hide Inv, StartStep, MoveStep, CrashStep;
    match e
    case Start(name, job, world) =>
      StartInv(h, p, job, world, p');
      StartKeeps(h, p, name, job, world, p');
    case Move(id) => MoveInv(h, p, id, p');
    case Crash(f, i) => CrashInv(h, p, f, i, p');
    case Revoke(hash, ref) => RevokeInv(h, p, p');
  }

  lemma StartKeeps(h: Digest, p: State, name: string, job: Job, world: World, p': State)
    requires StartStep(h, p, name, job, world, p')
    ensures p'.idem == p.idem
  {}

  /** The invariant holds throughout every execution. */
  lemma {:induction false} ExecutionInv(h: Digest, ps: seq<State>, es: seq<Event>, k: nat)
    requires Execution(h, ps, es) && k < |ps|
    ensures Inv(h, ps[k])
    decreases k
  {
    hide Inv, Step;
    if k == 0 {
      InitInv(h);
    } else {
      ExecutionInv(h, ps, es, k - 1);
      assert Step(h, ps[k - 1], es[k - 1], ps[k - 1 + 1]);
      StepInv(h, ps[k - 1], es[k - 1], ps[k]);
    }
  }

  /** A reserved key stays reserved, by the same intent, ever after. */
  lemma {:induction false} ReservationsPersist(h: Digest, ps: seq<State>, es: seq<Event>, i: nat, j: nat)
    requires Execution(h, ps, es) && i <= j < |ps|
    ensures Grew(ps[i].idem.reserved, ps[j].idem.reserved)
    decreases j - i
  {
    hide Inv, Step;
    if i < j {
      ReservationsPersist(h, ps, es, i, j - 1);
      ExecutionInv(h, ps, es, j - 1);
      assert Step(h, ps[j - 1], es[j - 1], ps[j - 1 + 1]);
      StepInv(h, ps[j - 1], es[j - 1], ps[j]);
    }
  }
}
