// Readers of the plane's feed: reconciliation with the log of executed
// submissions leaves one class of discrepancy possible, and every execution
// meets what settlement relies on.

module EndToEnd {
  import opened Text
  import opened Hashing
  import opened FeedRecord
  import opened Plane
  import opened PlaneTheorems
  import opened Clients
  import opened Reporting
  import Feed
  import Gate
  import Idempotency
  import Intents
  import Settlement

  /** Feed records as reconciliation reads them. */
  function Rows(rs: seq<Record>): (rows: seq<FeedRow>)
    ensures |rows| == |rs|
  {
    seq(|rs|, k requires 0 <= k < |rs| => FeedRow(rs[k].typ, rs[k].key))
  }

  /** The keys of the bodies that ran. */
  function FiredKeys(p: State, fired: seq<string>): multiset<string>
    requires forall id :: id in fired ==> id in p.runs
  {
    if fired == [] then multiset{}
    else
      assert fired[|fired| - 1] in fired;
      FiredKeys(p, fired[..|fired| - 1]) + multiset{KeyOf(p, fired[|fired| - 1])}
  }

  ghost predicate Granted(p: State, n: nat, key: string) {
    exists k :: 0 <= k < n && IsGrant(p, k) && p.feed.records[k].key == key
  }

  /** In the feed every key of this tool is granted once or not at all. */
  lemma {:induction false} AchievedOnce(h: Digest, p: State, n: nat, prefix: string, key: string)
    requires Inv(h, p) && n <= |p.feed.records|
    ensures AchievedKeys(Rows(p.feed.records[..n]), prefix)[key] ==
            if HasPrefix(key, prefix) && Granted(p, n, key) then 1 else 0
  {
    hide Inv;
    hide AchievedKeys, Rows, Granted;
    if n == 0 {
      NothingAchieved(p, prefix, key);
    } else {
      AchievedOnce(h, p, n - 1, prefix, key);
      AchievedNext(p, n - 1, prefix);
      GrantedNext(p, n - 1, key);
      if IsGrant(p, n - 1) && p.feed.records[n - 1].key == key {
        GrantedFirst(h, p, n - 1);
      }
    }
  }

  lemma NothingAchieved(p: State, prefix: string, key: string)
    ensures AchievedKeys(Rows(p.feed.records[..0]), prefix)[key] == 0 && !Granted(p, 0, key)
  {}

  lemma AchievedNext(p: State, n: nat, prefix: string)
    requires n < |p.feed.records|
    ensures AchievedKeys(Rows(p.feed.records[..n + 1]), prefix) == AchievedKeys(Rows(p.feed.records[..n]), prefix) +
      (if IsGrant(p, n) && HasPrefix(p.feed.records[n].key, prefix)
       then multiset{p.feed.records[n].key} else multiset{})
  {
    var rows := Rows(p.feed.records[..n + 1]);
    assert rows[..n] == Rows(p.feed.records[..n]);
    assert rows[n] == FeedRow(p.feed.records[n].typ, p.feed.records[n].key);
  }

  lemma GrantedFirst(h: Digest, p: State, n: nat)
    requires Inv(h, p) && IsGrant(p, n)
    ensures !Granted(p, n, p.feed.records[n].key)
  {
    hide Inv;
    var key := p.feed.records[n].key;
    forall k | 0 <= k < n && IsGrant(p, k)
      ensures p.feed.records[k].key != key
    {
      OneGrantPerKey(h, p, k, n);
    }
  }

  lemma GrantedNext(p: State, n: nat, key: string)
    requires n < |p.feed.records|
    ensures Granted(p, n + 1, key) <==> Granted(p, n, key) || (IsGrant(p, n) && p.feed.records[n].key == key)
  {}

  lemma {:induction false} FiredOnce(h: Digest, p: State, fired: seq<string>, key: string)
    requires forall id :: id in fired ==> id in p.runs
    requires forall j, k :: 0 <= j < k < |fired| ==> DifferentKeys(p, fired[j], fired[k])
    ensures FiredKeys(p, fired)[key] <= 1
    ensures FiredKeys(p, fired)[key] == 1 <==> exists k :: 0 <= k < |fired| && KeyOf(p, fired[k]) == key
  {
    if fired != [] {
      var init, last := fired[..|fired| - 1], fired[|fired| - 1];
      assert fired == init + [last];
      FiredOnce(h, p, init, key);
      if KeyOf(p, last) == key {
        forall k | 0 <= k < |init|
          ensures KeyOf(p, init[k]) != key
        {
          assert DifferentKeys(p, fired[k], fired[|fired| - 1]);
        }
      }
    }
  }

  lemma {:induction false} LoggedPrefixed(h: Digest, log: seq<Identity>, scope: string, run: string, key: string)
    requires LoggedKeys(h, log, scope, run)[key] > 0
    ensures HasPrefix(key, Prefix(scope, run))
  {
    hide Canonical, DeriveKey;
    var x, init := log[|log| - 1], log[..|log| - 1];
    if key == ReportKey(h, scope, run, x) {
      KeyPrefixed(h, scope, run, x);
    } else {
      LoggedPrefixed(h, init, scope, run, key);
    }
  }

  lemma KeyPrefixed(h: Digest, scope: string, run: string, x: Identity)
    ensures HasPrefix(ReportKey(h, scope, run, x), Prefix(scope, run))
  {
    hide Canonical;
  }

  /** Whatever was lost, retried, refused or crashed, reconciling the feed with
      the log of executed submissions can only report "achieved without
      submission": no submission was unauthorized or duplicated, no key was
      granted twice, and every logged submission is matched. */
  lemma OnlyLostSubmissions(
    h: Digest, cs: seq<Callers>, acts: seq<Act>, n: nat, log: seq<Identity>, scope: string, run: string,
    r: Reconciliation)
    requires Calls(h, cs, acts) && n < |cs|
    requires forall id :: id in cs[n].fired ==> id in cs[n].plane.runs
    requires LoggedKeys(h, log, scope, run) <= FiredKeys(cs[n].plane, cs[n].fired)
    requires Reconciles(r, AchievedKeys(Rows(cs[n].plane.feed.records), Prefix(scope, run)),
                        LoggedKeys(h, log, scope, run))
    ensures r.submissionsWithoutAchieved == {} && r.duplicateSubmissions == {} && r.duplicateAchieved == {}
    ensures forall key :: key in r.matched <==> LoggedKeys(h, log, scope, run)[key] > 0
  {
    hide Calls, CallInv, AchievedKeys, LoggedKeys, FiredKeys, Rows, Prefix, Inv, Achieved, Recorded, DifferentKeys,
         Reconciles;
    var p, fired := cs[n].plane, cs[n].fired;
    CallsInv(h, cs, acts, n);
    InvOf(h, cs[n]);
    FiresAtMostOnce(h, cs, acts, n);
    forall key
      ensures KeyBalanced(h, p, log, scope, run, key)
    {
      Balanced(h, p, fired, log, scope, run, key);
    }
    OnlyLost(h, p, log, scope, run, r);
  }

  /** A logged key was granted exactly once and logged exactly once. */
  ghost predicate KeyBalanced(h: Digest, p: State, log: seq<Identity>, scope: string, run: string, key: string) {
    var achieved, logged := AchievedKeys(Rows(p.feed.records), Prefix(scope, run)), LoggedKeys(h, log, scope, run);
    achieved[key] <= 1 && logged[key] <= 1 && (logged[key] > 0 ==> achieved[key] == 1)
  }

  lemma Balanced(h: Digest, p: State, fired: seq<string>, log: seq<Identity>, scope: string, run: string, key: string)
    requires Inv(h, p)
    requires forall id :: id in fired ==> id in p.runs && Recorded(p, id)
    requires forall j, k :: 0 <= j < k < |fired| ==> DifferentKeys(p, fired[j], fired[k])
    requires LoggedKeys(h, log, scope, run) <= FiredKeys(p, fired)
    ensures KeyBalanced(h, p, log, scope, run, key)
  {
    hide AchievedKeys, LoggedKeys, FiredKeys, Rows, Prefix, Inv, Recorded, DifferentKeys, Granted;
    assert p.feed.records[..|p.feed.records|] == p.feed.records;
    AchievedOnce(h, p, |p.feed.records|, Prefix(scope, run), key);
    FiredOnce(h, p, fired, key);
    assert LoggedKeys(h, log, scope, run)[key] <= FiredKeys(p, fired)[key];
    if LoggedKeys(h, log, scope, run)[key] > 0 {
      LoggedPrefixed(h, log, scope, run, key);
      var k :| 0 <= k < |fired| && KeyOf(p, fired[k]) == key;
      RecordedGranted(p, fired[k]);
    }
  }

  lemma OnlyLost(h: Digest, p: State, log: seq<Identity>, scope: string, run: string, r: Reconciliation)
    requires forall key :: KeyBalanced(h, p, log, scope, run, key)
    requires Reconciles(r, AchievedKeys(Rows(p.feed.records), Prefix(scope, run)), LoggedKeys(h, log, scope, run))
    ensures r.submissionsWithoutAchieved == {} && r.duplicateSubmissions == {} && r.duplicateAchieved == {}
    ensures forall key :: key in r.matched <==> LoggedKeys(h, log, scope, run)[key] > 0
  {
    hide AchievedKeys, LoggedKeys, Rows, Prefix;
    forall key
      ensures key !in r.submissionsWithoutAchieved && key !in r.duplicateSubmissions && key !in r.duplicateAchieved
      ensures key in r.matched <==> LoggedKeys(h, log, scope, run)[key] > 0
    {
      assert KeyBalanced(h, p, log, scope, run, key);
    }
  }

  lemma InvOf(h: Digest, c: Callers)
    requires CallInv(h, c)
    ensures Inv(h, c.plane)
  {
    hide Inv;
  }

  lemma RecordedGranted(p: State, id: string)
    requires Recorded(p, id)
    ensures Granted(p, |p.feed.records|, KeyOf(p, id))
  {
    var r :| r in p.feed.records && r.typ == "ACHIEVED" && r.intentId == id && r.key == KeyOf(p, id);
    var k :| 0 <= k < |p.feed.records| && p.feed.records[k] == r;
    assert IsGrant(p, k);
  }

  // ---------------------------------------------------- what settlement relies on

  /** The intents a consumer has tracked at submit time. */
  function IntentsOf(p: State): map<string, Intents.Intent> { map id | id in p.runs :: p.runs[id].job.intent }

  lemma NumberedFeed(h: Digest, p: State)
    requires Inv(h, p)
    ensures Feed.Numbered(p.feed.records)
  {}

  /** Every ACHIEVED record names a tracked intent under its own key. */
  lemma GrantsTracked(h: Digest, p: State)
    requires Inv(h, p)
    ensures Feed.Numbered(p.feed.records) && Settlement.Tracked(p.feed.records, IntentsOf(p))
  {
    NumberedFeed(h, p);
    hide Inv, RecordsOf, Feed.Numbered, Holds, PositionOf, IntentsOf;
    forall r | r in p.feed.records && Settlement.IsAchieved(r)
      ensures r.intentId in IntentsOf(p) && IntentsOf(p)[r.intentId].key == r.key
    {
      var k :| 0 <= k < |p.feed.records| && p.feed.records[k] == r;
      GrantIsLast(h, p, k);
      IntentAt(p, r.intentId);
    }
  }

  lemma IntentAt(p: State, id: string)
    requires id in p.runs
    ensures id in IntentsOf(p) && IntentsOf(p)[id] == p.runs[id].job.intent
  {}

  lemma StillTracked(rs: seq<Record>, p: State, p': State)
    requires Settlement.Tracked(rs, IntentsOf(p)) && Continues(p, p')
    ensures Settlement.Tracked(rs, IntentsOf(p'))
  {}

  lemma StepGrows(h: Digest, p: State, e: Event, p': State)
    requires Inv(h, p) && Step(h, p, e, p')
    ensures p.feed.records <= p'.feed.records
    ensures Continues(p, p')
  {
    hide Inv, MoveStep, CrashStep, StartStep, Continues, Named;
    StepContinues(h, p, e, p');
    match e
    case Start(name, job, world) => StartFeed(h, p, name, job, world, p');
    case Move(id) => MoveGrows(h, p, id, p');
    case Crash(f, i) => CrashGrows(h, p, f, i, p');
    case Revoke(_, _) =>
  }

  lemma StartFeed(h: Digest, p: State, name: string, job: Gate.Job, world: Gate.World, p': State)
    requires StartStep(h, p, name, job, world, p')
    ensures p'.feed == p.feed
  {}

  lemma MoveGrows(h: Digest, p: State, id: string, p': State)
    requires MoveStep(h, p, id, p')
    ensures p.feed.records <= p'.feed.records
  {
    hide Idempotency.Reserved, Feed.FeedWrite, Feed.Stamp, RequestOf, Pending, Moved;
  }

  lemma CrashGrows(h: Digest, p: State, f: Option<InFlight>, i: Option<InFlight>, p': State)
    requires Inv(h, p) && CrashStep(h, p, f, i, p')
    ensures p.feed.records <= p'.feed.records
  {
    SoundParts(h, p);
    CrashFeed(h, p, f, i, p');
    CrashContinues(h, p, f, i, p');
    hide Inv, CrashStep, Landed, Pending, RequestOf, Feed.Stamp;
  }

  /** The feed a consumer reads is only ever longer, through crashes too, and
      the intents behind it never change. */
  lemma {:induction false} FeedOnlyGrows(h: Digest, ps: seq<State>, es: seq<Event>, i: nat, j: nat)
    requires Execution(h, ps, es) && i <= j < |ps|
    ensures ps[i].feed.records <= ps[j].feed.records
    ensures forall id :: id in ps[i].runs ==> id in ps[j].runs && ps[j].runs[id].job == ps[i].runs[id].job
    ensures Settlement.Tracked(ps[i].feed.records, IntentsOf(ps[j]))
    decreases j - i
  {
    hide Inv, Step, IntentsOf, Settlement.Tracked;
    ExecutionInv(h, ps, es, i);
    GrantsTracked(h, ps[i]);
    if i < j {
      FeedOnlyGrows(h, ps, es, i, j - 1);
      ExecutionInv(h, ps, es, j - 1);
      assert Step(h, ps[j - 1], es[j - 1], ps[j - 1 + 1]);
      StepGrows(h, ps[j - 1], es[j - 1], ps[j]);
      StillTracked(ps[i].feed.records, ps[j - 1], ps[j]);
    }
  }

  /** A consumer of this execution: turn `m` reads the feed of state `at[m]`. */
  ghost predicate Polling(
    h: Digest, ps: seq<State>, at: seq<nat>, feeds: seq<seq<Record>>, cs: seq<Settlement.Consumer>, ns: seq<nat>)
  {
    && |at| == |feeds| == |ns| && |cs| == |ns| + 1 && cs[0] == Settlement.Consumer(0, Settlement.EMPTY)
    && (forall m :: 0 <= m < |at| ==> at[m] < |ps| && feeds[m] == ps[at[m]].feed.records)
    && (forall j, m :: 0 <= j <= m < |at| ==> at[j] <= at[m])
    && ps != []
    && forall m :: 0 <= m < |ns| ==>
         Settlement.Turn(h, feeds[m], IntentsOf(ps[|ps| - 1]), cs[m], ns[m], cs[m + 1])
  }

  lemma PollingIsSchedule(
    h: Digest, ps: seq<State>, es: seq<Event>, at: seq<nat>, feeds: seq<seq<Record>>, cs: seq<Settlement.Consumer>,
    ns: seq<nat>)
    requires Execution(h, ps, es) && Polling(h, ps, at, feeds, cs, ns)
    ensures Settlement.Schedule(h, feeds, IntentsOf(ps[|ps| - 1]), cs, ns)
  {
    hide Execution, Inv, IntentsOf, Settlement.Tracked, Settlement.Turn, Feed.Numbered;
    forall m | 0 <= m < |feeds|
      ensures Feed.Numbered(feeds[m]) && Settlement.Tracked(feeds[m], IntentsOf(ps[|ps| - 1]))
    {
      ExecutionInv(h, ps, es, at[m]);
      NumberedFeed(h, ps[at[m]]);
      FeedOnlyGrows(h, ps, es, at[m], |ps| - 1);
    }
    forall j, m | 0 <= j <= m < |feeds|
      ensures feeds[j] <= feeds[m]
    {
      FeedOnlyGrows(h, ps, es, at[j], at[m]);
    }
  }

  /** Exactly-once settlement over the plane: however the plane runs and crashes,
      and however its consumer polls, crashes and rewinds, the ledger holds one
      unchanging event per key, only for keys granted so far, and all of them
      once nothing is left past the cursor. */
  lemma SettledOverPlane(
    h: Digest, ps: seq<State>, es: seq<Event>, at: seq<nat>, feeds: seq<seq<Record>>, cs: seq<Settlement.Consumer>,
    ns: seq<nat>, m: nat)
    requires Execution(h, ps, es) && Polling(h, ps, at, feeds, cs, ns) && m < |ns|
    ensures var l, rs := cs[m + 1].ledger, ps[at[m]].feed.records;
      && Settlement.LedgerValid(l)
      && (forall key :: key in l.events ==> Settlement.HasKey(rs, key))
      && (Settlement.Page(rs, cs[m + 1].cursor, "ACHIEVED") == [] ==>
           forall key :: key in l.events <==> Settlement.HasKey(rs, key))
    ensures forall j :: 0 <= j <= m + 1 ==> Settlement.Keeps(cs[j].ledger, cs[m + 1].ledger)
  {
    hide Execution, IntentsOf, Settlement.Schedule, Settlement.Turn, Settlement.LedgerValid, Settlement.HasKey,
         Settlement.Keeps;
    PollingIsSchedule(h, ps, es, at, feeds, cs, ns);
    Settlement.SettledOnce(h, feeds, IntentsOf(ps[|ps| - 1]), cs, ns, m);
  }
}
