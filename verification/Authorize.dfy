// Authorize itself, written as the source writes it: one call over the
// per-intent log, the shared feed and the shared reservation store.

module Authorization {
  import opened Text
  import opened Hashing
  import opened Intents
  import opened Lifecycle
  import opened FeedRecord
  import opened Gate
  import Audit
  import Feed
  import Idempotency
  import R = GateRecords

  /** The terminal outcome of one authorization. */
  datatype Result = Result(
    terminal: Kind, reason: string, events: seq<Audit.Event>, hash: Bytes, achievedSeq: int)

  /** A feed after several appends. */
  function AppendAll(s: Feed.Store, recs: seq<Record>): Feed.Store {
    if recs == [] then s else Feed.Appended(AppendAll(s, recs[..|recs| - 1]), recs[|recs| - 1])
  }

  lemma AppendAllSnoc(s: Feed.Store, recs: seq<Record>, r: Record)
    ensures AppendAll(s, recs + [r]) == Feed.Appended(AppendAll(s, recs), r)
  {
    assert (recs + [r])[..|recs|] == recs;
  }

  /** The reservation store after the requests in `trace`. */
  function AfterTrace(s: Idempotency.Store, h: Digest, i: Intent, trace: seq<Request>): Idempotency.Store {
    if AskReserve in trace then Idempotency.Reserved(s, Id(h, i), i.key) else s
  }

  /** The answers of a call made now: the store decides the reservation. */
  function Answers(w: World, s: Idempotency.Store, key: string): World {
    w.(granted := Idempotency.Free(s, key))
  }

  /** `s` is a point of the run that `w` answers; the key is claimed at most
      once, and not before the program is past Reserving. */
  ghost predicate OnCourse(h: Digest, job: Job, w: World, s: Snap) {
    && ValidSnap(job, s) && Finish(h, job, w, s) == Outcome(h, job, w)
    && (Stage(s.pc) >= Stage(Reserving) ==> AskReserve !in s.trace)
  }

  lemma StayOnCourse(h: Digest, job: Job, w: World, s: Snap)
    requires OnCourse(h, job, w, s) && !s.pc.Done?
    ensures OnCourse(h, job, w, Next(h, job, w, s))
  {
    hide Next, Outcome, Finish;
    FinishNext(h, job, w, s);
    AdvanceCloser(job.intent, w, s.pc);
    OnlyReservingAsks(h, job.intent, s.pc);
    NextFields(h, job, w, s);
  }

  lemma FinishNext(h: Digest, job: Job, w: World, s: Snap)
    requires ValidSnap(job, s) && !s.pc.Done?
    ensures Finish(h, job, w, Next(h, job, w, s)) == Finish(h, job, w, s)
  {
    hide Next;
  }

  lemma NextFields(h: Digest, job: Job, w: World, s: Snap)
    requires ValidSnap(job, s) && !s.pc.Done?
    ensures var s' := Next(h, job, w, s);
      s'.pc == Advance(job.intent, w, s.pc) && s'.trace == s.trace + [Ask(h, job.intent, s.pc)]
  {
    hide Ask, Advance, Mirror, EventsOf;
  }

  lemma OnlyReservingAsks(h: Digest, i: Intent, pc: Pc)
    requires ValidPc(i, pc)
    ensures Ask(h, i, pc).AskReserve? <==> pc.Reserving?
  {
    hide Id, ScoreText;
  }

  lemma AppendAllSeq(s: Feed.Store, recs: seq<Record>)
    ensures AppendAll(s, recs).globalSeq == s.globalSeq + |recs|
  {
    hide Feed.FeedWrite;
  }

  /** A finished run is the outcome. */
  lemma Finished(h: Digest, job: Job, w: World, s: Snap)
    requires OnCourse(h, job, w, s) && s.pc.Done?
    ensures s == Outcome(h, job, w)
  {
    hide Outcome;
  }

  lemma HaltsWhenDone(h: Digest, i: Intent, pc: Pc)
    requires ValidPc(i, pc)
    ensures pc.Done? <==> Ask(h, i, pc).Halt?
  {
    hide Id, ScoreText;
  }

  class Authorizer {
    const h: Digest
    const scorerId: string
    const feed: Feed.FeedStore
    const store: Idempotency.IdemStore

    constructor (h: Digest, scorerId: string, feed: Feed.FeedStore, store: Idempotency.IdemStore)
      ensures this.h == h && this.scorerId == scorerId && this.feed == feed && this.store == store
    {
      this.h, this.scorerId, this.feed, this.store := h, scorerId, feed, store;
    }

    /** The log and both stores are where the run `s` left them, starting from
        feed `f0` and reservations `r0`. */
    ghost predicate Tracks(
      i: Intent, w: World, f0: Feed.Store, r0: Idempotency.Store, s: Snap, log: Audit.EventLog)
      reads feed, store, log
    {
      && OnCourse(h, Job(i, scorerId), w, s)
      && log.events == EventsOf(s.recs)
      && feed.View() == AppendAll(f0, s.recs)
      && store.View() == AfterTrace(r0, h, i, s.trace)
    }

    /** Append to the in-memory log and mirror the event to the feed. */
    method Emit(log: Audit.EventLog, i: Intent, kind: Kind, detail: string,
                ghost w: World, ghost f0: Feed.Store, ghost r0: Idempotency.Store, ghost s: Snap)
      returns (ghost s': Snap)
      requires Tracks(i, w, f0, r0, s, log) && Ask(h, i, s.pc) == Request.Emit(kind, detail)
      modifies log, feed
      ensures Tracks(i, w, f0, r0, s', log) && s'.pc == Advance(i, w, s.pc)
    {
      hide Ask, Advance, Id, EventsOf, Name, Finish, Outcome, Mirror, AppendAll, Feed.Appended;
      var e := log.Append(Name(kind), detail);
      var rec := ZERO.(intentId := Id(h, i), intentSeq := e.clock, typ := e.typ, detail := e.detail);
      PlainMirror(Request.Emit(kind, detail), i, log.events[..|s.recs|]);
      assert log.events[..|s.recs|] == EventsOf(s.recs);
      if kind == SCORED || kind == RECHECK {
        rec := rec.(scorerId := scorerId);
      }
      var _ := feed.Append(rec);
      s' := Moved(i, w, f0, r0, s, log, rec);
    }

    lemma PlainMirror(request: Request, i: Intent, events: seq<Audit.Event>)
      requires request.Emit?
      ensures Mirror(h, Job(i, scorerId), request, events) ==
        ZERO.(intentId := Id(h, i), intentSeq := |events|, typ := Name(request.kind), detail := request.detail,
              scorerId := if request.kind == SCORED || request.kind == RECHECK then scorerId else "")
    {
      hide Id, Name;
    }

    lemma FinalMirror(request: Request, i: Intent, events: seq<Audit.Event>)
      requires request.EmitFinal?
      ensures var e := Audit.Event(|events|, Name(request.kind), request.detail);
        Mirror(h, Job(i, scorerId), request, events) ==
        ZERO.(intentId := Id(h, i), intentSeq := e.clock, typ := e.typ, detail := e.detail,
              hash := Audit.HashOf(h, events + [e]))
    {
      hide Id, Name;
    }

    lemma TracedMirror(request: Request, i: Intent, events: seq<Audit.Event>)
      requires request.EmitTraced?
      ensures var e := Audit.Event(|events|, Name(request.kind), Id(h, i));
        Mirror(h, Job(i, scorerId), request, events) ==
        ZERO.(intentId := Id(h, i), intentSeq := e.clock, typ := e.typ, detail := e.detail, key := i.key,
              ruleHash := i.ruleHash, specHash := i.specHash, hash := Audit.HashOf(h, events + [e]))
    {
      hide Id, Name;
    }

    /** The intent's last event, stamped with the hash of the complete log. */
    method EmitFinal(log: Audit.EventLog, i: Intent, kind: Kind, detail: string,
                     ghost w: World, ghost f0: Feed.Store, ghost r0: Idempotency.Store, ghost s: Snap)
      returns (ghost s': Snap)
      requires Tracks(i, w, f0, r0, s, log) && Ask(h, i, s.pc) == Request.EmitFinal(kind, detail)
      modifies log, feed
      ensures Tracks(i, w, f0, r0, s', log) && s'.pc == Advance(i, w, s.pc)
    {
      hide Ask, Advance, Id, EventsOf, Name, Finish, Outcome, Mirror, AppendAll, Feed.Appended;
      var e := log.Append(Name(kind), detail);
      FinalMirror(Request.EmitFinal(kind, detail), i, log.events[..|s.recs|]);
      assert log.events[..|s.recs|] == EventsOf(s.recs);
      var th := log.TrajectoryHash(h);
      var rec := ZERO.(intentId := Id(h, i), intentSeq := e.clock, typ := e.typ, detail := e.detail, hash := th);
      var _ := feed.Append(rec);
      s' := Moved(i, w, f0, r0, s, log, rec);
    }

    /** The last event of a grant or a shadow, with the four trace fields. */
    method EmitTraced(log: Audit.EventLog, i: Intent, kind: Kind,
                      ghost w: World, ghost f0: Feed.Store, ghost r0: Idempotency.Store, ghost s: Snap)
      returns (th: Bytes, seqNo: int, ghost s': Snap)
      requires Tracks(i, w, f0, r0, s, log) && Ask(h, i, s.pc) == Request.EmitTraced(kind)
      modifies log, feed
      ensures Tracks(i, w, f0, r0, s', log) && s'.pc == Advance(i, w, s.pc)
      ensures th == Audit.HashOf(h, log.events) && seqNo == feed.globalSeq
    {
      hide Ask, Advance, Id, EventsOf, Name, Finish, Outcome, Mirror, AppendAll, Feed.FeedWrite;
      var e := log.Append(Name(kind), Id(h, i));
      TracedMirror(Request.EmitTraced(kind), i, log.events[..|s.recs|]);
      assert log.events[..|s.recs|] == EventsOf(s.recs);
      th := log.TrajectoryHash(h);
      var rec := ZERO.(intentId := Id(h, i), intentSeq := e.clock, typ := e.typ, detail := e.detail,
                       key := i.key, ruleHash := i.ruleHash, specHash := i.specHash, hash := th);
      var stored := feed.Append(rec);
      seqNo := stored.globalSeq;
      s' := Moved(i, w, f0, r0, s, log, rec);
    }

    /** The run has taken the step whose record was just mirrored. */
    ghost method Moved(i: Intent, w: World, f0: Feed.Store, r0: Idempotency.Store, s: Snap,
                       log: Audit.EventLog, rec: Record) returns (s': Snap)
      requires OnCourse(h, Job(i, scorerId), w, s) && Emits(Ask(h, i, s.pc))
      requires rec == NextRecord(h, Job(i, scorerId), s)
      requires log.events == EventsOf(s.recs) + [Audit.Event(|s.recs|, rec.typ, rec.detail)]
      requires feed.View() == Feed.Appended(AppendAll(f0, s.recs), rec)
      requires store.View() == AfterTrace(r0, h, i, s.trace)
      ensures Tracks(i, w, f0, r0, s', log) && s'.pc == Advance(i, w, s.pc)
    {
      hide Ask, Advance, Id, NextRecord, Finish, Outcome, Feed.Appended;
      s' := Next(h, Job(i, scorerId), w, s);
      HaltsWhenDone(h, i, s.pc);
      NextFields(h, Job(i, scorerId), w, s);
      StayOnCourse(h, Job(i, scorerId), w, s);
      AppendAllSnoc(f0, s.recs, rec);
    }

    /** A consult of the scorer or the revocation signal: nothing is written. */
    ghost method Consulted(i: Intent, w: World, f0: Feed.Store, r0: Idempotency.Store, s: Snap, log: Audit.EventLog)
      returns (s': Snap)
      requires Tracks(i, w, f0, r0, s, log)
      requires Ask(h, i, s.pc).AskDeclaration? || Ask(h, i, s.pc).AskDispatch? || Ask(h, i, s.pc).AskRevoked?
      ensures Tracks(i, w, f0, r0, s', log) && s'.pc == Advance(i, w, s.pc)
    {
      hide Ask, Advance, Id, Finish, Outcome, AppendAll, EventsOf;
      s' := Next(h, Job(i, scorerId), w, s);
      HaltsWhenDone(h, i, s.pc);
      NextFields(h, Job(i, scorerId), w, s);
      StayOnCourse(h, Job(i, scorerId), w, s);
    }

    /** transition: a checked lifecycle edge, logged as an event. `ok` is false
        where the source reports an invalid transition, which never happens. */
    method Transition(log: Audit.EventLog, i: Intent, state: Kind, to: Kind,
                      ghost w: World, ghost f0: Feed.Store, ghost r0: Idempotency.Store, ghost s: Snap)
      returns (state': Kind, ok: bool, ghost s': Snap)
      requires Tracks(i, w, f0, r0, s, log) && Ask(h, i, s.pc) == Request.Emit(to, "")
      requires IsValidTransition(state, to)
      modifies log, feed
      ensures ok && state' == to
      ensures Tracks(i, w, f0, r0, s', log) && s'.pc == Advance(i, w, s.pc)
    {
      hide Ask, Advance, Tracks;
      state', ok, s' := state, IsValidTransition(state, to), s;
      if ok {
        state' := to;
        s' := Emit(log, i, to, "", w, f0, r0, s);
      }
    }

    /** transitionFinal, and the result that goes with it. */
    method Refused(log: Audit.EventLog, i: Intent, state: Kind, to: Kind, reason: string,
                   ghost w: World, ghost f0: Feed.Store, ghost r0: Idempotency.Store, ghost s: Snap)
      returns (result: Result, ok: bool, ghost s': Snap)
      requires Tracks(i, w, f0, r0, s, log) && s.pc == Refuse(to, reason)
      requires (to == FAILED || to == FAILED_AT_DISPATCH) && state == VERIFYING
      modifies log, feed
      ensures ok && Tracks(i, w, f0, r0, s', log)
      ensures Reports(result, s', log) && result.terminal == to && result.achievedSeq == 0
    {
      hide Tracks, Reports;
      result, s' := Result(FAILED, "", [], "", 0), s;
      ok := IsValidTransition(state, to);
      if ok {
        result, s' := Terminal(log, i, to, reason, to, reason, w, f0, r0, s);
      }
    }

    /** emitFinal, then the result with its own terminal and reason. */
    method Terminal(log: Audit.EventLog, i: Intent, kind: Kind, detail: string, terminal: Kind, reason: string,
                    ghost w: World, ghost f0: Feed.Store, ghost r0: Idempotency.Store, ghost s: Snap)
      returns (result: Result, ghost s': Snap)
      requires Tracks(i, w, f0, r0, s, log) && s.pc == Refusing(kind, detail, reason) && terminal == TerminalOf(kind)
      modifies log, feed
      ensures Tracks(i, w, f0, r0, s', log)
      ensures Reports(result, s', log) && result.terminal == terminal && result.achievedSeq == 0
    {
      hide Tracks;
      s' := EmitFinal(log, i, kind, detail, w, f0, r0, s);
      var th := log.TrajectoryHash(h);
      result := Result(terminal, reason, log.events, th, 0);
    }

    /** The result reports what the run ended with. */
    ghost predicate Reports(result: Result, s: Snap, log: Audit.EventLog)
      reads log
    {
      && s.pc == Done(result.terminal, result.reason)
      && result.events == log.events && result.hash == Audit.HashOf(h, log.events)
    }

    /** Steps 1 to 1b: everything refused before any scoring. */
    method Admit(log: Audit.EventLog, i: Intent, first: Option<string>,
                 ghost w: World, ghost f0: Feed.Store, ghost r0: Idempotency.Store)
      returns (done: bool, result: Result, ghost s: Snap)
      requires Tracks(i, w, f0, r0, START, log) && first == w.first
      modifies log, feed
      ensures Tracks(i, w, f0, r0, s, log)
      ensures done ==> Reports(result, s, log) && result.terminal != ACHIEVED && result.achievedSeq == 0
      ensures !done ==> s.pc == Resolving
    {
      hide Tracks, Reports, First, Misspelled;
      result := Result(FAILED, "", [], "", 0);
      s := Emit(log, i, DECLARED, Id(h, i), w, f0, r0, START);
      if i.key == "" {
        result, s := Terminal(log, i, UNEVALUABLE, Say(AbsentKey), FAILED, Say(NoKey), w, f0, r0, s);
        return true, result, s;
      }
      var ref := i.resolution.revokedRef;
      if ref != "" {
        result, s := Terminal(log, i, REVOKED, ref, FAILED, Say(RevokedBy) + ref, w, f0, r0, s);
        return true, result, s;
      }
      if !i.resolution.attested {
        result, s := Terminal(log, i, UNEVALUABLE, Say(UnattestedSpec) + i.specHash, FAILED, Say(NoAttestation), w,
                              f0, r0, s);
        return true, result, s;
      }
      s := Consulted(i, w, f0, r0, s, log);
      if first.Some? {
        result, s := Terminal(log, i, REVOKED, first.value, FAILED, Say(RevokedBy) + first.value, w, f0, r0, s);
        return true, result, s;
      }
      done, result, s := CheckSpec(log, i, w, f0, r0, s);
    }

    /** Steps 1a4 to 1b: posture, human judgment, thin specs. */
    method CheckSpec(log: Audit.EventLog, i: Intent,
                     ghost w: World, ghost f0: Feed.Store, ghost r0: Idempotency.Store, ghost s0: Snap)
      returns (done: bool, result: Result, ghost s: Snap)
      requires Tracks(i, w, f0, r0, s0, log) && s0.pc == AfterAdmission(i)
      modifies log, feed
      ensures Tracks(i, w, f0, r0, s, log)
      ensures done ==> Reports(result, s, log) && result.terminal != ACHIEVED && result.achievedSeq == 0
      ensures !done ==> s.pc == Resolving
    {
      hide Tracks, Reports;
      s := s0;
      result := Result(FAILED, "", [], "", 0);
      var cs := i.spec.criteria;
      if i.spec.posture != "enforce" && i.spec.posture != "shadow" {
        result, s := Terminal(log, i, UNEVALUABLE, Say(InvalidPosture) + i.spec.posture, FAILED, Say(NoPosture), w,
                              f0, r0, s);
        return true, result, s;
      }
      if i.spec.humanJudgment != [] {
        var name := i.spec.humanJudgment[0];
        result, s := Terminal(log, i, UNEVALUABLE, Say(HumanJudgment) + name, FAILED, Say(NoHuman) + name, w, f0, r0,
                              s);
        return true, result, s;
      }
      if cs == [] {
        result, s := Terminal(log, i, UNEVALUABLE, Say(EmptyCriteria) + i.specHash, FAILED, Say(NoCriteria), w, f0,
                              r0, s);
        return true, result, s;
      }
      for k := 0 to |cs|
        invariant s == s0 && Tracks(i, w, f0, r0, s, log)
        invariant First(0, |cs|, Misspelled(i)) == First(k, |cs|, Misspelled(i))
      {
        var c := cs[k];
        if c.volatility != "stable" && c.volatility != "volatile" {
          result, s := Terminal(log, i, UNEVALUABLE, Say(InvalidVolatility) + c.name + ":" + c.volatility,
                                FAILED, Say(NoVolatility) + c.name, w, f0, r0, s);
          return true, result, s;
        }
      }
      done := false;
    }

    /** Step 2: the three transitions that lead to scoring. */
    method Enter(log: Audit.EventLog, i: Intent,
                 ghost w: World, ghost f0: Feed.Store, ghost r0: Idempotency.Store, ghost s0: Snap)
      returns (state: Kind, ok: bool, ghost s: Snap)
      requires Tracks(i, w, f0, r0, s0, log) && s0.pc == Resolving
      modifies log, feed
      ensures ok && state == VERIFYING
      ensures Tracks(i, w, f0, r0, s, log) && s.pc == NextScore(i, 0, [])
    {
      hide NextScore, Tracks;
      s, state, ok := s0, DECLARED, true;
      var stages := [RESOLVING, ACTIVE, VERIFYING];
      for k := 0 to |stages|
        invariant ok && Tracks(i, w, f0, r0, s, log)
        invariant s.pc == (if k == 0 then Resolving else if k == 1 then Activating
                           else if k == 2 then Verifying else NextScore(i, 0, []))
        invariant state == if k == 0 then DECLARED else stages[k - 1]
      {
        state, ok, s := Transition(log, i, state, stages[k], w, f0, r0, s);
      }
    }

    /** Step 3: every criterion, stable and volatile, in slice order. */
    method Score(log: Audit.EventLog, i: Intent, state: Kind, declaration: nat -> int,
                 ghost w: World, ghost f0: Feed.Store, ghost r0: Idempotency.Store, ghost s0: Snap)
      returns (done: bool, result: Result, ok: bool, ghost s: Snap)
      requires Tracks(i, w, f0, r0, s0, log) && s0.pc == NextScore(i, 0, []) && declaration == w.declaration
      requires state == VERIFYING
      modifies log, feed
      ensures ok && Tracks(i, w, f0, r0, s, log)
      ensures done ==> Reports(result, s, log) && result.terminal != ACHIEVED && result.achievedSeq == 0
      ensures !done ==> s.pc == NextRecheck(i, 0)
    {
      hide Tracks, Reports, NextRecheck, Id, Join, ScoreText, Say;
      s := s0;
      result, ok := Result(FAILED, "", [], "", 0), true;
      var failed: seq<string> := [];
      for k := 0 to |i.spec.criteria|
        invariant ok && Tracks(i, w, f0, r0, s, log) && s.pc == NextScore(i, k, failed)
      {
        var c := i.spec.criteria[k];
        s := Consulted(i, w, f0, r0, s, log);
        var score := declaration(k);
        s := Emit(log, i, SCORED, c.name + ":" + ScoreText(score), w, f0, r0, s);
        if score == PASS {
        } else if score == FAIL {
          failed := failed + [c.name];
        } else {
          s := Emit(log, i, UNEVALUABLE, c.name, w, f0, r0, s);
          result, ok, s := Refused(log, i, state, FAILED, Say(Unscored) + c.name, w, f0, r0, s);
          return true, result, ok, s;
        }
      }
      if |failed| > 0 {
        result, ok, s := Refused(log, i, state, FAILED, Join(failed, ","), w, f0, r0, s);
        return true, result, ok, s;
      }
      done := false;
    }

    /** Step 4a: volatile criteria again, at the dispatch edge. */
    method Recheck(log: Audit.EventLog, i: Intent, state: Kind, dispatch: nat -> int,
                   ghost w: World, ghost f0: Feed.Store, ghost r0: Idempotency.Store, ghost s0: Snap)
      returns (done: bool, result: Result, ok: bool, ghost s: Snap)
      requires Tracks(i, w, f0, r0, s0, log) && s0.pc == NextRecheck(i, 0) && dispatch == w.dispatch
      requires state == VERIFYING
      modifies log, feed
      ensures ok && Tracks(i, w, f0, r0, s, log)
      ensures done ==> Reports(result, s, log) && result.terminal != ACHIEVED && result.achievedSeq == 0
      ensures !done ==> s.pc == EdgeCheck
    {
      hide Tracks, Reports, NextRecheck, Advance;
      s := s0;
      result, ok := Result(FAILED, "", [], "", 0), true;
      for k := 0 to |i.spec.criteria|
        invariant ok && Tracks(i, w, f0, r0, s, log) && s.pc == NextRecheck(i, k)
      {
        var c := i.spec.criteria[k];
        RecheckNext(i, w, k);
        if c.volatility != "volatile" {
          continue;
        }
        var score;
        score, s := Rescore(log, i, k, dispatch, w, f0, r0, s);
        if score == PASS {
          continue;
        }
        result, ok, s := Drift(log, i, state, k, score, w, f0, r0, s);
        return true, result, ok, s;
      }
      RecheckEnds(i);
      done := false;
    }

    lemma RecheckNext(i: Intent, w: World, k: nat)
      requires k < |i.spec.criteria|
      ensures NextRecheck(i, k) == if IsVolatile(i.spec.criteria[k]) then Rechecking(k) else NextRecheck(i, k + 1)
      ensures Advance(i, w, Rechecked(k, PASS)) == NextRecheck(i, k + 1)
    {}

    lemma RecheckEnds(i: Intent)
      ensures NextRecheck(i, |i.spec.criteria|) == EdgeCheck
    {}

    /** One criterion again, and the event that says what it scored. */
    method Rescore(log: Audit.EventLog, i: Intent, k: nat, dispatch: nat -> int,
                   ghost w: World, ghost f0: Feed.Store, ghost r0: Idempotency.Store, ghost s0: Snap)
      returns (score: int, ghost s: Snap)
      requires k < |i.spec.criteria| && dispatch == w.dispatch
      requires Tracks(i, w, f0, r0, s0, log) && s0.pc == Rechecking(k)
      modifies log, feed
      ensures score == dispatch(k)
      ensures Tracks(i, w, f0, r0, s, log) && s.pc == Advance(i, w, Rechecked(k, score))
    {
      hide Tracks, Id, ScoreText;
      s := Consulted(i, w, f0, r0, s0, log);
      score := dispatch(k);
      s := Emit(log, i, RECHECK, i.spec.criteria[k].name + ":" + ScoreText(score), w, f0, r0, s);
    }

    /** A volatile criterion that did not pass again ends the run. */
    method Drift(log: Audit.EventLog, i: Intent, state: Kind, k: nat, score: int,
                 ghost w: World, ghost f0: Feed.Store, ghost r0: Idempotency.Store, ghost s0: Snap)
      returns (result: Result, ok: bool, ghost s: Snap)
      requires k < |i.spec.criteria| && score != PASS && state == VERIFYING
      requires Tracks(i, w, f0, r0, s0, log) && s0.pc == Advance(i, w, Rechecked(k, score))
      modifies log, feed
      ensures ok && Tracks(i, w, f0, r0, s, log)
      ensures Reports(result, s, log) && result.terminal != ACHIEVED && result.achievedSeq == 0
    {
      hide Tracks, Reports, Id, Say;
      s := s0;
      var name := i.spec.criteria[k].name;
      if score == UNSCORED {
        s := Emit(log, i, UNEVALUABLE, name, w, f0, r0, s);
      }
      result, ok, s := Refused(log, i, state, FAILED_AT_DISPATCH, Say(Drifted) + name, w, f0, r0, s);
    }

    /** Steps 4a2 to 5: revocation again, the shadow, the reservation, the grant. */
    method Dispatch(log: Audit.EventLog, i: Intent, state: Kind, edge: Option<string>,
                    ghost w: World, ghost f0: Feed.Store, ghost r0: Idempotency.Store, ghost s0: Snap)
      returns (result: Result, ok: bool, ghost s: Snap)
      requires Tracks(i, w, f0, r0, s0, log) && s0.pc == EdgeCheck && edge == w.edge
      requires state == VERIFYING && w.granted == Idempotency.Free(r0, i.key)
      modifies log, feed, store
      ensures ok && Tracks(i, w, f0, r0, s, log) && Reports(result, s, log)
      ensures result.achievedSeq == if result.terminal == ACHIEVED then feed.globalSeq else 0
    {
      hide Tracks, Reports, Id, Say;
      ok := true;
      s := Consulted(i, w, f0, r0, s0, log);
      if edge.Some? {
        s := Emit(log, i, REVOKED, edge.value, w, f0, r0, s);
        result, ok, s := Refused(log, i, state, FAILED_AT_DISPATCH, Say(RevokedBy) + edge.value, w, f0, r0, s);
        return result, ok, s;
      }
      if i.spec.posture == "shadow" {
        ok := IsValidTransition(state, SHADOW_RECORDED);
        result, s := Granted(log, i, SHADOW_RECORDED, w, f0, r0, s);
        return result, ok, s;
      }
      var reserved: bool;
      reserved, s := Reserve(log, i, w, f0, r0, s);
      if !reserved {
        result, ok, s := Refused(log, i, state, FAILED_AT_DISPATCH, Say(Collided), w, f0, r0, s);
        return result, ok, s;
      }
      s := Emit(log, i, IDEMPOTENCY_RESERVED, i.key, w, f0, r0, s);
      ok := IsValidTransition(state, ACHIEVED);
      result, s := Granted(log, i, ACHIEVED, w, f0, r0, s);
    }

    lemma ReservingAsks(i: Intent)
      ensures Ask(h, i, Reserving) == AskReserve
    {
      hide Id;
    }

    method Reserve(log: Audit.EventLog, i: Intent,
                   ghost w: World, ghost f0: Feed.Store, ghost r0: Idempotency.Store, ghost s: Snap)
      returns (reserved: bool, ghost s': Snap)
      requires Tracks(i, w, f0, r0, s, log) && s.pc == Reserving
      requires w.granted == Idempotency.Free(r0, i.key)
      modifies store
      ensures reserved == w.granted
      ensures Tracks(i, w, f0, r0, s', log) && s'.pc == Advance(i, w, s.pc)
    {
      hide Id, Outcome, Finish, AppendAll, EventsOf, Idempotency.Reserved, Ask, NextRecord, Clocked;
      ReservingAsks(i);
      reserved := store.Reserve(Id(h, i), i.key);
      s' := Next(h, Job(i, scorerId), w, s);
      NextFields(h, Job(i, scorerId), w, s);
      StayOnCourse(h, Job(i, scorerId), w, s);
    }

    method Granted(log: Audit.EventLog, i: Intent, kind: Kind,
                   ghost w: World, ghost f0: Feed.Store, ghost r0: Idempotency.Store, ghost s0: Snap)
      returns (result: Result, ghost s: Snap)
      requires Tracks(i, w, f0, r0, s0, log)
      requires (kind == SHADOW_RECORDED && s0.pc == Shadowing) || (kind == ACHIEVED && s0.pc == Achieving)
      modifies log, feed
      ensures Tracks(i, w, f0, r0, s, log) && Reports(result, s, log) && result.terminal == kind
      ensures result.achievedSeq == if kind == ACHIEVED then feed.globalSeq else 0
    {
      hide Tracks, Id;
      var th, seqNo;
      th, seqNo, s := EmitTraced(log, i, kind, w, f0, r0, s0);
      result := Result(kind, "", log.events, th, if kind == ACHIEVED then seqNo else 0);
    }

    lemma Starts(i: Intent, w: World, f0: Feed.Store, r0: Idempotency.Store, log: Audit.EventLog)
      requires log.events == [] && feed.View() == f0 && store.View() == r0
      ensures Tracks(i, w, f0, r0, START, log)
    {
      hide Finish;
    }

    lemma Ends(i: Intent, w: World, f0: Feed.Store, r0: Idempotency.Store, s: Snap, log: Audit.EventLog, result: Result)
      requires Tracks(i, w, f0, r0, s, log) && Reports(result, s, log)
      ensures s == Outcome(h, Job(i, scorerId), w)
      ensures result.terminal == s.pc.terminal && result.reason == s.pc.reason
      ensures result.events == EventsOf(s.recs) && result.hash == Audit.HashOf(h, result.events)
      ensures feed.View() == AppendAll(f0, s.recs) && feed.globalSeq == f0.globalSeq + |s.recs|
      ensures store.View() == AfterTrace(r0, h, i, s.trace)
    {
      hide Finish, Outcome, EventsOf, AppendAll, Id;
      Finished(h, Job(i, scorerId), w, s);
      AppendAllSeq(f0, s.recs);
    }

    /** All the steps of one call, from an empty log. */
    method Steps(log: Audit.EventLog, i: Intent, w: World, ghost answers: World, ghost f0: Feed.Store,
                 ghost r0: Idempotency.Store)
      returns (result: Result, ok: bool, ghost s: Snap)
      requires Tracks(i, answers, f0, r0, START, log) && answers == Answers(w, r0, i.key)
      modifies log, feed, store
      ensures ok && Tracks(i, answers, f0, r0, s, log) && Reports(result, s, log)
      ensures result.achievedSeq == if result.terminal == ACHIEVED then feed.globalSeq else 0
    {
      hide NextScore, NextRecheck, Tracks, Reports;
      var done, state;
      done, result, s := Admit(log, i, w.first, answers, f0, r0);
      if done {
        return result, true, s;
      }
      state, ok, s := Enter(log, i, answers, f0, r0, s);
      done, result, ok, s := Score(log, i, state, w.declaration, answers, f0, r0, s);
      if done {
        return result, ok, s;
      }
      done, result, ok, s := Recheck(log, i, state, w.dispatch, answers, f0, r0, s);
      if done {
        return result, ok, s;
      }
      result, ok, s := Dispatch(log, i, state, w.edge, answers, f0, r0, s);
    }

    /** One call. `w` holds the answers of the scorer and the revocation
        signal; the reservation is answered by the store itself. */
    method Authorize(i: Intent, w: World) returns (result: Result, ok: bool, ghost s: Snap)
      modifies feed, store
      ensures s == Outcome(h, Job(i, scorerId), Answers(w, old(store.View()), i.key))
      ensures ok && result.terminal == s.pc.terminal && result.reason == s.pc.reason
      ensures result.events == EventsOf(s.recs) && result.hash == Audit.HashOf(h, result.events)
      ensures result.achievedSeq == if result.terminal == ACHIEVED then old(feed.globalSeq) + |s.recs| else 0
      ensures feed.View() == AppendAll(old(feed.View()), s.recs)
      ensures store.View() == AfterTrace(old(store.View()), h, i, s.trace)
      ensures R.Account(i, Answers(w, old(store.View()), i.key), Id(h, i),
                        R.Story(R.Lines(s.recs), Name(result.terminal), result.reason))
    {
      hide R.Account, R.Lines, Name;
      hide Finish, Tracks, Reports, Outcome, AppendAll, AfterTrace, EventsOf, Id;
      var log := new Audit.EventLog();
      ghost var f0, r0 := feed.View(), store.View();
      ghost var answers := Answers(w, r0, i.key);
      assert Tracks(i, answers, f0, r0, START, log) by { Starts(i, answers, f0, r0, log); }
      result, ok, s := Steps(log, i, w, answers, f0, r0);
      Ends(i, answers, f0, r0, s, log, result);
      R.Accounted(h, Job(i, scorerId), answers);
    }
  }
}
