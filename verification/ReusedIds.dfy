// At most once per key, whatever the intent ids: `Reserve` works by key alone,
// so calls may even share an intent id.

module ReusedIds {
  import opened Text
  import opened Hashing
  import opened Intents
  import opened Lifecycle
  import opened FeedRecord
  import opened Gate
  import opened GateInvariant
  import opened GateVerified
  import opened Plane
  import opened Clients
  import Declarant
  import Feed
  import Idempotency

  // ---------------------------------------------------- the invariant

  predicate Grants(p: State, k: int) { 0 <= k < |p.feed.records| && p.feed.records[k].typ == "ACHIEVED" }

  predicate Owns(p: State, c: string) { c in p.runs && Holds(p.runs[c].snap.pc) }

  ghost predicate WonBy(p: State, key: string) { exists c :: Achieved(p, c) && KeyOf(p, c) == key }

  ghost predicate OneOwner(p: State) {
    forall c, d :: c != d && Owns(p, c) && Owns(p, d) ==> KeyOf(p, c) != KeyOf(p, d)
  }

  ghost predicate OneGrant(p: State) {
    forall j, k :: j < k && Grants(p, j) && Grants(p, k) ==> p.feed.records[j].key != p.feed.records[k].key
  }

  ghost predicate RunsInv(h: Digest, p: State) {
    forall c :: c in p.runs ==> RunInv(h, p.runs[c].job, p.runs[c].snap)
  }

  ghost predicate OwnersReserved(p: State) { forall c :: Owns(p, c) ==> KeyOf(p, c) in p.idem.reserved }

  ghost predicate GrantsWon(p: State) { forall k :: Grants(p, k) ==> WonBy(p, p.feed.records[k].key) }

  ghost predicate KeyInv(h: Digest, p: State) {
    && Feed.Sound(p.feed) && Idempotency.Sound(p.idem)
    && RunsInv(h, p) && OwnersReserved(p) && OneOwner(p) && OneGrant(p) && GrantsWon(p)
  }

  /** Only a call that holds its key appends an ACHIEVED record, under that key,
      and is then finished. */
  lemma AppendsGrant(h: Digest, r: Run)
    requires RunInv(h, r.job, r.snap) && !r.snap.pc.Done? && ValidSnap(r.job, r.snap)
    requires Emits(Ask(h, r.job.intent, r.snap.pc))
    ensures var next := NextRecord(h, r.job, r.snap);
      next.typ == "ACHIEVED" ==> r.snap.pc.Achieving? && next.key == r.job.intent.key
    ensures r.snap.pc.Achieving? ==> Moved(h, r).snap.pc == Done(ACHIEVED, "")
  {
    hide RunInv, Ask, Advance, NextRecord;
    InvValid(h, r);
    MovedInv(h, r);
    if r.snap.pc.Achieving? {
      AchievingDone(r);
    }
    OnlyAchievingGrants(h, r);
  }

  lemma AchievingDone(r: Run)
    requires r.snap.pc.Achieving?
    ensures Advance(r.job.intent, r.world, r.snap.pc) == Done(ACHIEVED, "")
  {}

  lemma OnlyAchievingGrants(h: Digest, r: Run)
    requires ValidSnap(r.job, r.snap) && NeverRefusesWithGrant(r.snap.pc)
    requires Emits(Ask(h, r.job.intent, r.snap.pc))
    ensures var next := NextRecord(h, r.job, r.snap);
      next.typ == "ACHIEVED" ==> r.snap.pc.Achieving? && next.key == r.job.intent.key
  {
    hide Id, EventsOf, ScoreText, Say;
    KindTypes(Ask(h, r.job.intent, r.snap.pc).kind);
  }

  /** A step other than a granted reservation gives no key. */
  lemma OwnsBefore(h: Digest, r: Run)
    requires RunInv(h, r.job, r.snap) && !r.snap.pc.Done?
    ensures ValidSnap(r.job, r.snap) && RunInv(h, r.job, Moved(h, r).snap)
    ensures Holds(Moved(h, r).snap.pc) ==>
      Holds(r.snap.pc) || (Ask(h, r.job.intent, r.snap.pc).AskReserve? && r.world.granted)
  {
    hide RunInv, Ask, Advance, NextRecord, Holds;
    InvValid(h, r);
    MovedInv(h, r);
    HoldsNext(h, r.job.intent, r.world, r.snap.pc);
  }

  // ---------------------------------------------------- what a step leaves alone

  lemma WonStays(p: State, p': State, key: string)
    requires WonBy(p, key) && Continues(p, p')
    ensures WonBy(p', key)
  {
    var c :| Achieved(p, c) && KeyOf(p, c) == key;
    assert Achieved(p', c) && KeyOf(p', c) == key;
  }

  /** No record was gained. */
  lemma SameGrants(p: State, p': State)
    requires GrantsWon(p) && OneGrant(p) && Continues(p, p') && p'.feed.records == p.feed.records
    ensures GrantsWon(p') && OneGrant(p')
  {
    hide WonBy, Continues;
    forall k | Grants(p', k)
      ensures WonBy(p', p'.feed.records[k].key)
    {
      assert Grants(p, k);
      WonStays(p, p', p.feed.records[k].key);
    }
    forall j, k | j < k && Grants(p', j) && Grants(p', k)
      ensures p'.feed.records[j].key != p'.feed.records[k].key
    {
      assert Grants(p, j) && Grants(p, k);
    }
  }

  /** No call has come to own a key. */
  lemma SameOwners(p: State, p': State)
    requires OwnersReserved(p) && OneOwner(p) && Continues(p, p') && Grew(p.idem.reserved, p'.idem.reserved)
    requires forall c :: Owns(p', c) ==> Owns(p, c)
    ensures OwnersReserved(p') && OneOwner(p')
  {
    hide Holds;
  }

  // ---------------------------------------------------- an appended record

  /** The call `c` has appended its record. */
  ghost predicate Appended(h: Digest, p: State, p': State, c: string) {
    && Running(h, p, c) && Emits(RequestOf(h, p, c)) && Continues(p, p') && p'.runs.Keys == p.runs.Keys
    && FeedGains(p.feed, p'.feed, Some(Pending(h, p, c)))
    && p'.runs[c].snap == Moved(h, p.runs[c]).snap
    && forall d :: d in p.runs && d != c ==> p'.runs[d].snap == p.runs[d].snap
  }

  lemma AppendKeeps(h: Digest, p: State, p': State, c: string)
    requires KeyInv(h, p) && Feed.Sound(p'.feed) && Idempotency.Sound(p'.idem)
    requires Appended(h, p, p', c) && Grew(p.idem.reserved, p'.idem.reserved)
    ensures KeyInv(h, p')
  {
    hide Feed.Sound, Idempotency.Sound, RunInv, Holds, RequestOf, Pending, Moved, FeedGains, GrantsWon, OneGrant,
         OwnersReserved, OneOwner, Owns, Grew;
    OwnsBefore(h, p.runs[c]);
    AppendOwners(h, p, p', c);
    SameOwners(p, p');
    AppendGrants(h, p, p', c);
  }

  lemma AppendOwners(h: Digest, p: State, p': State, c: string)
    requires RunsInv(h, p) && Appended(h, p, p', c)
    ensures forall d :: Owns(p', d) ==> Owns(p, d)
  {
    hide RunInv, Holds, Pending, Moved, FeedGains, Ask;
    OwnsBefore(h, p.runs[c]);
  }

  lemma AppendGrants(h: Digest, p: State, p': State, c: string)
    requires RunsInv(h, p) && OneOwner(p) && OneGrant(p) && GrantsWon(p) && Appended(h, p, p', c)
    ensures OneGrant(p') && GrantsWon(p')
  {
    hide RunInv, Moved, FeedGains, WonBy, Ask, NextRecord, OneOwner, Continues, Feed.Stamp;
    var r, n := Pending(h, p, c), |p.feed.records|;
    AppendsGrant(h, p.runs[c]);
    LastGained(p, p', r);
    forall k | Grants(p', k)
      ensures WonBy(p', p'.feed.records[k].key)
    {
      if k < n {
        assert Grants(p, k);
        WonStays(p, p', p.feed.records[k].key);
      } else {
        NewGrant(p', c);
        SameKey(p, p', c);
      }
    }
    forall j, k | j < k && Grants(p', j) && Grants(p', k)
      ensures p'.feed.records[j].key != p'.feed.records[k].key
    {
      assert Grants(p, j);
      if k == n {
        OtherKey(p, c, p.feed.records[j].key);
      } else {
        assert Grants(p, k);
      }
    }
  }

  lemma LastGained(p: State, p': State, r: Record)
    requires FeedGains(p.feed, p'.feed, Some(r))
    ensures |p'.feed.records| == |p.feed.records| + 1
    ensures forall k :: 0 <= k < |p.feed.records| ==> p'.feed.records[k] == p.feed.records[k]
    ensures p'.feed.records[|p.feed.records|].typ == r.typ && p'.feed.records[|p.feed.records|].key == r.key
  {}

  lemma SameKey(p: State, p': State, c: string)
    requires Continues(p, p') && c in p.runs
    ensures c in p'.runs && KeyOf(p', c) == KeyOf(p, c)
  {}

  lemma NewGrant(p: State, c: string)
    requires Achieved(p, c)
    ensures WonBy(p, KeyOf(p, c))
  {}

  /** A call about to append its grant is not finished, so no finished one has
      its key. */
  lemma OtherKey(p: State, c: string, key: string)
    requires OneOwner(p) && c in p.runs && p.runs[c].snap.pc.Achieving? && WonBy(p, key)
    ensures KeyOf(p, c) != key
  {
    var d :| Achieved(p, d) && KeyOf(p, d) == key;
    assert Owns(p, d) && Owns(p, c) && c != d;
  }

  // ---------------------------------------------------- every step keeps it

  lemma MoveKeeps(h: Digest, p: State, c: string, p': State)
    requires KeyInv(h, p) && MoveStep(h, p, c, p')
    ensures KeyInv(h, p') && Grew(p.idem.reserved, p'.idem.reserved)
  {
    hide RunsInv, OwnersReserved, OneOwner, OneGrant, GrantsWon, Feed.Appended, Idempotency.Reserved, RequestOf,
         Pending, Moved, Idempotency.Free, IntentIdOf, Feed.Sound, Idempotency.Sound, Grew, Continues, FeedGains;
    ReservedGrew(p.idem, IntentIdOf(h, p, c), KeyOf(p, c));
    Idempotency.ReserveSound(p.idem, IntentIdOf(h, p, c), KeyOf(p, c));
    MoveContinues(h, p, c, p');
    GrewSelf(p.idem.reserved);
    if Emits(RequestOf(h, p, c)) {
      Feed.AppendSound(p.feed, Pending(h, p, c));
      AppendGains(p.feed, Pending(h, p, c));
      AppendKeeps(h, p, p', c);
    } else {
      InPlaceKeeps(h, p, c, p');
      SameGrants(p, p');
    }
  }

  lemma GrewSelf(m: map<string, string>)
    ensures Grew(m, m)
  {}

  /** A consult, or a reservation: only one granted on a free key gives it. */
  lemma InPlaceKeeps(h: Digest, p: State, c: string, p': State)
    requires RunsInv(h, p) && OwnersReserved(p) && OneOwner(p) && MoveStep(h, p, c, p') && !Emits(RequestOf(h, p, c))
    ensures RunsInv(h, p') && OwnersReserved(p') && OneOwner(p')
  {
    hide RunsInv, OwnersReserved, OneOwner, MoveStep, RequestOf, Owns, Grew, Continues;
    MoveContinues(h, p, c, p');
    NewOwner(h, p, c, p');
    OwnersFrom(p, p', c);
    MovedRunsInv(h, p, c, p');
  }

  lemma MovedRunsInv(h: Digest, p: State, c: string, p': State)
    requires RunsInv(h, p) && MoveStep(h, p, c, p')
    ensures RunsInv(h, p')
  {
    MoveContinues(h, p, c, p');
    assert !p.runs[c].snap.pc.Done?;
    hide MoveStep, Moved, RunInv;
    OwnsBefore(h, p.runs[c]);
  }

  lemma OwnersFrom(p: State, p': State, c: string)
    requires OwnersReserved(p) && OneOwner(p) && Continues(p, p') && p'.runs.Keys == p.runs.Keys && c in p.runs
    requires Grew(p.idem.reserved, p'.idem.reserved) && forall d :: d != c && Owns(p', d) ==> Owns(p, d)
    requires Owns(p', c) && !Owns(p, c) ==> KeyOf(p, c) !in p.idem.reserved && KeyOf(p, c) in p'.idem.reserved
    ensures OwnersReserved(p') && OneOwner(p')
  {
    hide Holds;
    SameKeys(p, p');
    hide Owns;
  }

  lemma SameKeys(p: State, p': State)
    requires Continues(p, p') && p'.runs.Keys == p.runs.Keys
    ensures forall d :: d in p'.runs ==> KeyOf(p', d) == KeyOf(p, d)
  {}

  /** The only new owner can be the call that moved, on a key free until then. */
  lemma NewOwner(h: Digest, p: State, c: string, p': State)
    requires RunsInv(h, p) && MoveStep(h, p, c, p') && !Emits(RequestOf(h, p, c))
    ensures c in p.runs && forall d :: d != c && Owns(p', d) ==> Owns(p, d)
    ensures Owns(p', c) && !Owns(p, c) ==> KeyOf(p, c) !in p.idem.reserved && KeyOf(p, c) in p'.idem.reserved
    ensures Grew(p.idem.reserved, p'.idem.reserved)
  {
    hide RunInv, Holds, Next, Idempotency.ReserveWrite, Ask, IntentIdOf;
    OwnsBefore(h, p.runs[c]);
  }

  lemma CrashKeeps(h: Digest, p: State, f: Option<InFlight>, i: Option<InFlight>, p': State)
    requires KeyInv(h, p) && CrashStep(h, p, f, i, p')
    ensures KeyInv(h, p') && Grew(p.idem.reserved, p'.idem.reserved)
  {
    hide RunsInv, OwnersReserved, OneOwner, OneGrant, GrantsWon, CrashStep, Feed.Sound, Idempotency.Sound, Grew,
         Continues, FeedGains, RequestOf, Pending, Moved, Landed;
    CrashIdem(h, p, f, i, p');
    CrashFeed(h, p, f, i, p');
    CrashContinues(h, p, f, i, p');
    if Gained(h, p, f).Some? {
      AppendKeeps(h, p, p', f.value.id);
    } else {
      StillKeeps(h, p, p');
      SameFeed(p, p');
      SameGrants(p, p');
    }
  }

  lemma SameFeed(p: State, p': State)
    requires FeedGains(p.feed, p'.feed, None)
    ensures p'.feed.records == p.feed.records
  {}

  lemma StillKeeps(h: Digest, p: State, p': State)
    requires RunsInv(h, p) && OwnersReserved(p) && OneOwner(p) && Continues(p, p') && p'.runs.Keys == p.runs.Keys
    requires Grew(p.idem.reserved, p'.idem.reserved)
    requires forall d :: d in p.runs ==> p'.runs[d].snap == p.runs[d].snap
    ensures RunsInv(h, p') && OwnersReserved(p') && OneOwner(p')
  {
    hide RunInv, Holds;
    SameOwners(p, p');
  }

  lemma StartKeepsKeys(h: Digest, p: State, name: string, job: Job, world: World, p': State)
    requires KeyInv(h, p) && StartStep(h, p, name, job, world, p')
    ensures KeyInv(h, p')
  {
    hide Feed.Sound, Idempotency.Sound, RunInv, GrantsWon, OneGrant, WellResolved, OwnersReserved, OneOwner;
    GateInvariant.StartInv(h, job);
    SameOwners(p, p');
    SameGrants(p, p');
  }

  /** Every step keeps it, and loses no reservation. */
  lemma StepKeeps(h: Digest, p: State, e: Event, p': State)
    requires KeyInv(h, p) && AnyStep(h, p, e, p')
    ensures KeyInv(h, p') && Grew(p.idem.reserved, p'.idem.reserved)
  {
    hide StartStep, MoveStep, CrashStep, KeyInv;
    match e
    case Start(name, job, world) =>
      StartKeepsKeys(h, p, name, job, world, p');
      StartKeeps(h, p, name, job, world, p');
    case Move(c) => MoveKeeps(h, p, c, p');
    case Crash(f, i) => CrashKeeps(h, p, f, i, p');
    case Revoke(_, _) => TombsKeep(h, p, p');
  }

  lemma TombsKeep(h: Digest, p: State, p': State)
    requires KeyInv(h, p) && p' == p.(tombs := p'.tombs)
    ensures KeyInv(h, p') && Grew(p.idem.reserved, p'.idem.reserved)
  {
    hide Feed.Sound, Idempotency.Sound, RunInv, GrantsWon, OneGrant, OwnersReserved, OneOwner;
    SameOwners(p, p');
    SameGrants(p, p');
  }

  // ---------------------------------------------------- callers

  ghost predicate FireInv(h: Digest, a: Callers) {
    && KeyInv(h, a.plane)
    && (forall k :: 0 <= k < |a.fired| ==> a.fired[k] in a.answered && Achieved(a.plane, a.fired[k]))
    && (forall j, k :: 0 <= j < k < |a.fired| ==> a.fired[j] != a.fired[k])
  }

  lemma DeliverFires(h: Digest, a: Callers, id: string, d: Delivery, b: Callers)
    requires FireInv(h, a) && DeliverStep(h, a, id, d, b)
    ensures FireInv(h, b)
  {
    hide KeyInv, Declarant.FreshProceed, Heard, Achieved;
    var heard := Heard(h, a.plane, id, d);
    if heard.Some? && Declarant.FreshProceed(heard.value) {
      DoorOpens(h, a.plane, id, d);
    }
  }

  lemma ActFires(h: Digest, a: Callers, act: Act, b: Callers)
    requires FireInv(h, a) && CallStep(h, a, act, b)
    ensures FireInv(h, b) && Grew(a.plane.idem.reserved, b.plane.idem.reserved)
  {
    hide KeyInv, AnyStep, DeliverStep, Grew;
    match act
    case Plane(e) =>
      StepKeeps(h, a.plane, e, b.plane);
      forall k | 0 <= k < |b.fired|
        ensures b.fired[k] in b.answered && Achieved(b.plane, b.fired[k])
      {
        FinishedStays(h, a.plane, e, b.plane, a.fired[k]);
      }
    case Deliver(id, d) =>
      DeliverFires(h, a, id, d, b);
      SamePlane(h, a, id, d, b);
      GrewSelf(a.plane.idem.reserved);
  }

  lemma SamePlane(h: Digest, a: Callers, id: string, d: Delivery, b: Callers)
    requires DeliverStep(h, a, id, d, b)
    ensures b.plane == a.plane
  {
    hide Heard, Declarant.FreshProceed;
  }

  lemma NothingFired(h: Digest)
    ensures FireInv(h, Callers(INIT, {}, []))
  {
    hide Feed.Sound, Feed.Opened;
    Feed.EmptySound();
    Idempotency.EmptyFile();
    hide Idempotency.Opened;
    NothingYet(h);
  }

  lemma NothingYet(h: Digest)
    ensures INIT.feed.records == [] && INIT.runs == map[] && Idempotency.Sound(INIT.idem)
  {
    hide Feed.Recovered, Idempotency.Recovered;
    Feed.EmptySound();
  }

  lemma {:induction false} TrafficFires(h: Digest, cs: seq<Callers>, acts: seq<Act>, n: nat)
    requires Traffic(h, cs, acts) && n < |cs|
    ensures FireInv(h, cs[n])
    decreases n
  {
    hide FireInv, CallStep;
    if n == 0 {
      NothingFired(h);
    } else {
      TrafficFires(h, cs, acts, n - 1);
      assert CallStep(h, cs[n - 1], acts[n - 1], cs[n - 1 + 1]);
      ActFires(h, cs[n - 1], acts[n - 1], cs[n]);
    }
  }

  /** Whatever ids the calls carry, and whatever is lost, late or torn: no two
      ACHIEVED records share a key, each key is durably reserved, and the body
      has fired at most once per key. */
  lemma OncePerKey(h: Digest, cs: seq<Callers>, acts: seq<Act>, n: nat)
    requires Traffic(h, cs, acts) && n < |cs|
    ensures var p, fired := cs[n].plane, cs[n].fired;
      && OneGrant(p)
      && (forall k :: Grants(p, k) ==> p.feed.records[k].key in Idempotency.Recovered(p.idem.disk))
      && (forall k :: 0 <= k < |fired| ==> Achieved(p, fired[k]))
      && (forall j, k :: 0 <= j < k < |fired| ==> DifferentKeys(p, fired[j], fired[k]))
  {
    hide Traffic, RunInv, Feed.Sound, Idempotency.Recovered;
    TrafficFires(h, cs, acts, n);
    var p, fired := cs[n].plane, cs[n].fired;
    forall k | Grants(p, k)
      ensures p.feed.records[k].key in p.idem.reserved
    {
      var c :| Achieved(p, c) && KeyOf(p, c) == p.feed.records[k].key;
      assert Owns(p, c);
    }
    forall j, k | 0 <= j < k < |fired|
      ensures DifferentKeys(p, fired[j], fired[k])
    {
      assert Owns(p, fired[j]) && Owns(p, fired[k]) && fired[j] != fired[k];
    }
  }

  /** A key once reserved never becomes free again. */
  lemma {:induction false} StaysReserved(h: Digest, cs: seq<Callers>, acts: seq<Act>, j: nat, n: nat)
    requires Traffic(h, cs, acts) && j <= n < |cs|
    ensures Grew(cs[j].plane.idem.reserved, cs[n].plane.idem.reserved)
    decreases n
  {
    hide FireInv, CallStep, Grew;
    if j == n {
      GrewSelf(cs[n].plane.idem.reserved);
    } else {
      StaysReserved(h, cs, acts, j, n - 1);
      TrafficFires(h, cs, acts, n - 1);
      assert CallStep(h, cs[n - 1], acts[n - 1], cs[n - 1 + 1]);
      ActFires(h, cs[n - 1], acts[n - 1], cs[n]);
      GrewOn(cs[j].plane.idem.reserved, cs[n - 1].plane.idem.reserved, cs[n].plane.idem.reserved);
    }
  }

  lemma GrewOn(a: map<string, string>, b: map<string, string>, c: map<string, string>)
    requires Grew(a, b) && Grew(b, c)
    ensures Grew(a, c)
  {}
}
