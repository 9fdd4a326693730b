// What a declaring client concludes from an outcome (declarant/declarant.go,
// declarant/client.go and their Python twins).

module Declarant {
  import opened Text
  import opened FeedRecord

  datatype Class =
    | Proceed | ShadowRecorded | PolicyDenied | SDKBug | SpecUnattested | SpecDefect | HumanJudgment
    | Unevaluable | Revoked | FactDrift | AlreadyReserved | Indeterminate | Unknown

  /** A class, and whether a retry under the same key is safe. */
  datatype Verdict = Verdict(class_: Class, retrySafe: bool)

  predicate Contains(s: string, c: char) { c in s }

  /** A reason of a failed run that starts so is placed whatever follows. */
  predicate Placed(reason: string) { HasPrefix(reason, "unevaluable:") || HasPrefix(reason, "revoked:") }

  function ClassifyFailed(reason: string): Verdict {
    if reason == "unevaluable:absent-key" then Verdict(SDKBug, true)
    else if reason == "unevaluable:unattested-spec" then Verdict(SpecUnattested, true)
    else if reason == "unevaluable:invalid-posture" || reason == "unevaluable:empty-criteria"
            || HasPrefix(reason, "unevaluable:invalid-volatility:") then Verdict(SpecDefect, true)
    else if HasPrefix(reason, "unevaluable:human-judgment:") then Verdict(HumanJudgment, true)
    else if HasPrefix(reason, "revoked:") then Verdict(Revoked, true)
    else if HasPrefix(reason, "unevaluable:") then Verdict(Unevaluable, true)
    else if reason != "" && !Contains(reason, ':') then Verdict(PolicyDenied, true)
    else Verdict(Unknown, false)
  }

  function ClassifyAtDispatch(reason: string): Verdict {
    if HasPrefix(reason, "volatile-recheck:") then Verdict(FactDrift, true)
    else if reason == "idempotency-collision" then Verdict(AlreadyReserved, false)
    else if HasPrefix(reason, "revoked:") then Verdict(Revoked, true)
    else Verdict(Unknown, false)
  }

  /** A synchronous terminal and its reason; total, and Unknown never retries. */
  function Classify(terminal: string, reason: string): Verdict {
    if terminal == "ACHIEVED" then Verdict(Proceed, false)
    else if terminal == "SHADOW_RECORDED" then Verdict(ShadowRecorded, true)
    else if terminal == "FAILED" then ClassifyFailed(reason)
    else if terminal == "FAILED_AT_DISPATCH" then ClassifyAtDispatch(reason)
    else Verdict(Unknown, false)
  }

  /** The same conclusion drawn from a last record in the feed: a refusal that
      never logged FAILED is mapped back onto the synchronous vocabulary. */
  function ClassifyRecord(typ: string, detail: string): Verdict {
    if typ == "ACHIEVED" || typ == "SHADOW_RECORDED" || typ == "FAILED" || typ == "FAILED_AT_DISPATCH"
    then Classify(typ, detail)
    else if typ == "UNEVALUABLE" then
      if detail == "absent-key" then Classify("FAILED", "unevaluable:absent-key")
      else if HasPrefix(detail, "unattested-spec:") then Classify("FAILED", "unevaluable:unattested-spec")
      else if HasPrefix(detail, "invalid-posture:") then Classify("FAILED", "unevaluable:invalid-posture")
      else if HasPrefix(detail, "empty-criteria:") then Classify("FAILED", "unevaluable:empty-criteria")
      else Classify("FAILED", "unevaluable:" + detail)
    else if typ == "REVOKED" then Classify("FAILED", "revoked:" + detail)
    else Verdict(Unknown, false)
  }

  // ---------------------------------------------------- what each class means

  lemma Colons(reason: string)
    ensures "unevaluable:" <= reason ==> ':' in reason && reason[0] == 'u'
    ensures "revoked:" <= reason ==> ':' in reason && reason[0] == 'r'
    ensures "unevaluable:invalid-volatility:" <= reason ==> "unevaluable:" <= reason && reason[12..14] == "in"
    ensures "unevaluable:human-judgment:" <= reason ==> "unevaluable:" <= reason && reason[12] == 'h'
  {
    assert "unevaluable:" <= reason ==> reason[11] == ':';
    assert "revoked:" <= reason ==> reason[7] == ':';
    var volatility, human := "unevaluable:invalid-volatility:", "unevaluable:human-judgment:";
    assert volatility[..12] == "unevaluable:" && human[..12] == "unevaluable:";
    assert volatility <= reason ==> reason[..12] == volatility[..12];
    assert human <= reason ==> reason[..12] == human[..12];
  }

  predicate Fixed(reason: string) {
    || reason == "unevaluable:absent-key" || reason == "unevaluable:unattested-spec"
    || reason == "unevaluable:invalid-posture" || reason == "unevaluable:empty-criteria"
  }

  lemma FixedReason(reason: string)
    requires Fixed(reason)
    ensures "unevaluable:" <= reason
    ensures !("unevaluable:invalid-volatility:" <= reason) && !("unevaluable:human-judgment:" <= reason)
  {
    assert reason[..12] == "unevaluable:";
    assert reason[12] == 'a' || reason[12] == 'u' || |reason| < 30;
  }

  /** A failed run's reason, class by class. */
  lemma FailedTable(reason: string)
    ensures var v := ClassifyFailed(reason);
      && (v == Verdict(SDKBug, true) <==> reason == "unevaluable:absent-key")
      && (v == Verdict(SpecUnattested, true) <==> reason == "unevaluable:unattested-spec")
      && (v == Verdict(SpecDefect, true) <==>
           || reason == "unevaluable:invalid-posture" || reason == "unevaluable:empty-criteria"
           || "unevaluable:invalid-volatility:" <= reason)
      && (v == Verdict(HumanJudgment, true) <==> "unevaluable:human-judgment:" <= reason)
      && (v == Verdict(Revoked, true) <==> "revoked:" <= reason)
      && (v == Verdict(PolicyDenied, true) <==> reason != "" && ':' !in reason)
      && (v == Verdict(Unknown, false) <==>
           reason == "" || (':' in reason && !("unevaluable:" <= reason) && !("revoked:" <= reason)))
      && (v == Verdict(Unevaluable, true) <==>
           && "unevaluable:" <= reason && !Fixed(reason)
           && !("unevaluable:invalid-volatility:" <= reason) && !("unevaluable:human-judgment:" <= reason))
  {
    Colons(reason);
    if Fixed(reason) {
      FixedReason(reason);
    }
  }

  /** A refusal at the edge, class by class. */
  lemma EdgeTable(reason: string)
    ensures var v := ClassifyAtDispatch(reason);
      && (v == Verdict(FactDrift, true) <==> "volatile-recheck:" <= reason)
      && (v == Verdict(AlreadyReserved, false) <==> reason == "idempotency-collision")
      && (v == Verdict(Revoked, true) <==> "revoked:" <= reason)
      && (v in {Verdict(FactDrift, true), Verdict(AlreadyReserved, false), Verdict(Revoked, true),
                Verdict(Unknown, false)})
  {
    assert "volatile-recheck:" <= reason ==> reason[0] == 'v';
    assert "revoked:" <= reason ==> reason[0] == 'r';
    assert reason == "idempotency-collision" ==> reason[0] == 'i';
  }

  /** Every terminal and reason: which retry is safe, and where each class comes
      from. Nothing but ACHIEVED proceeds, and nothing unread retries. */
  lemma ClassifyTable(terminal: string, reason: string)
    ensures var v := Classify(terminal, reason);
      && (v.class_ == Proceed <==> terminal == "ACHIEVED")
      && (v.class_ == ShadowRecorded <==> terminal == "SHADOW_RECORDED")
      && (v.retrySafe <==> v.class_ !in {Proceed, AlreadyReserved, Unknown})
      && v.class_ != Indeterminate
      && (terminal == "FAILED" ==> v == ClassifyFailed(reason))
      && (terminal == "FAILED_AT_DISPATCH" ==> v == ClassifyAtDispatch(reason))
      && (terminal !in {"ACHIEVED", "SHADOW_RECORDED", "FAILED", "FAILED_AT_DISPATCH"} ==> v.class_ == Unknown)
  {
    hide HasPrefix;
  }

  /** A last record in the feed is read as the terminal and reason its call
      answered; a type that ends no call is Unknown. */
  lemma RecordTable(typ: string, detail: string)
    ensures var v := ClassifyRecord(typ, detail);
      && (typ in {"ACHIEVED", "SHADOW_RECORDED", "FAILED", "FAILED_AT_DISPATCH"} ==> v == Classify(typ, detail))
      && (typ == "REVOKED" ==> v == Verdict(Revoked, true))
      && (typ == "UNEVALUABLE" ==>
           && (detail == "absent-key" ==> v == Verdict(SDKBug, true))
           && ("unattested-spec:" <= detail ==> v == Verdict(SpecUnattested, true))
           && ("invalid-posture:" <= detail || "empty-criteria:" <= detail || "invalid-volatility:" <= detail ==>
                v == Verdict(SpecDefect, true))
           && ("human-judgment:" <= detail ==> v == Verdict(HumanJudgment, true))
           && v.retrySafe)
      && (typ !in {"ACHIEVED", "SHADOW_RECORDED", "FAILED", "FAILED_AT_DISPATCH", "REVOKED", "UNEVALUABLE"} ==>
           v == Verdict(Unknown, false))
  {
    if typ == "UNEVALUABLE" {
      UnevaluableRecord(detail);
    } else if typ == "REVOKED" {
      FailedTable("revoked:" + detail);
    }
  }

  lemma UnevaluableRecord(detail: string)
    ensures var v := ClassifyRecord("UNEVALUABLE", detail);
      && (detail == "absent-key" ==> v == Verdict(SDKBug, true))
      && ("unattested-spec:" <= detail ==> v == Verdict(SpecUnattested, true))
      && ("invalid-posture:" <= detail || "empty-criteria:" <= detail || "invalid-volatility:" <= detail ==>
           v == Verdict(SpecDefect, true))
      && ("human-judgment:" <= detail ==> v == Verdict(HumanJudgment, true))
      && v.retrySafe
  {
    Starts(detail);
    FailedTable("unevaluable:absent-key");
    FailedTable("unevaluable:unattested-spec");
    FailedTable("unevaluable:invalid-posture");
    FailedTable("unevaluable:empty-criteria");
    Mapped(detail);
    hide ClassifyFailed, ClassifyRecord, HasPrefix;
  }

  /** The prefixes of a last record's detail exclude one another. */
  lemma Starts(detail: string)
    ensures detail == "absent-key" ==> detail[0] == 'a'
    ensures "unattested-spec:" <= detail ==> detail[0] == 'u'
    ensures "invalid-posture:" <= detail ==> detail[0] == 'i' && detail[8] == 'p'
    ensures "empty-criteria:" <= detail ==> detail[0] == 'e'
    ensures "invalid-volatility:" <= detail ==> detail[0] == 'i' && detail[8] == 'v'
    ensures "human-judgment:" <= detail ==> detail[0] == 'h'
  {}

  lemma Mapped(detail: string)
    ensures var v := ClassifyRecord("UNEVALUABLE", detail);
      && (detail == "absent-key" ==> v == ClassifyFailed("unevaluable:absent-key"))
      && ("unattested-spec:" <= detail ==> v == ClassifyFailed("unevaluable:unattested-spec"))
      && ("invalid-posture:" <= detail ==> v == ClassifyFailed("unevaluable:invalid-posture"))
      && ("empty-criteria:" <= detail ==> v == ClassifyFailed("unevaluable:empty-criteria"))
      && ("invalid-volatility:" <= detail ==> v == Verdict(SpecDefect, true))
      && ("human-judgment:" <= detail ==> v == Verdict(HumanJudgment, true))
      && v.retrySafe
  {
    hide ClassifyFailed;
    Starts(detail);
    NamedReasons(detail);
    FailedFits("unevaluable:" + detail);
    FailedFits("unevaluable:absent-key");
    FailedFits("unevaluable:unattested-spec");
    FailedFits("unevaluable:invalid-posture");
    FailedFits("unevaluable:empty-criteria");
  }

  lemma Joined()
    ensures "unevaluable:" + "invalid-volatility:" == "unevaluable:invalid-volatility:"
    ensures "unevaluable:" + "human-judgment:" == "unevaluable:human-judgment:"
  {}

  lemma LongReasons(reason: string)
    ensures "unevaluable:invalid-volatility:" <= reason ==> ClassifyFailed(reason) == Verdict(SpecDefect, true)
    ensures "unevaluable:human-judgment:" <= reason ==> ClassifyFailed(reason) == Verdict(HumanJudgment, true)
  {
    FailedTable(reason);
    hide ClassifyFailed;
  }

  lemma NamedReasons(detail: string)
    ensures "invalid-volatility:" <= detail ==> ClassifyFailed("unevaluable:" + detail) == Verdict(SpecDefect, true)
    ensures "human-judgment:" <= detail ==> ClassifyFailed("unevaluable:" + detail) == Verdict(HumanJudgment, true)
    ensures "unevaluable:" <= "unevaluable:" + detail
  {
    hide ClassifyFailed;
    LongReasons("unevaluable:" + detail);
    Joined();
    Carried(detail, "invalid-volatility:");
    Carried(detail, "human-judgment:");
  }

  lemma Carried(detail: string, p: string)
    ensures "unevaluable:" + p <= "unevaluable:" + detail <==> p <= detail
  {
    var a, b := "unevaluable:" + p, "unevaluable:" + detail;
    assert a[12..] == p && b[12..] == detail;
    if p <= detail {
      assert detail == p + detail[|p|..];
      assert b == a + detail[|p|..];
    }
    if a <= b {
      assert b[..|a|] == a && detail[..|p|] == b[12..|a|] == a[12..];
    }
  }

  lemma FailedFits(reason: string)
    requires "unevaluable:" <= reason
    ensures ClassifyFailed(reason).retrySafe
  {
    FailedTable(reason);
    hide ClassifyFailed;
    Colons(reason);
  }

  // ---------------------------------------------------- the terminal position

  /** `k` is the first record with the greatest intent_seq. */
  predicate IsTop(recs: seq<Record>, k: nat) {
    && k < |recs|
    && (forall j :: 0 <= j < |recs| ==> recs[j].intentSeq <= recs[k].intentSeq)
    && (forall j :: 0 <= j < k ==> recs[j].intentSeq < recs[k].intentSeq)
  }

  function Top(recs: seq<Record>): (k: nat)
    requires recs != []
    ensures IsTop(recs, k)
  {
    if |recs| == 1 then 0
    else
      var n := |recs| - 1;
      var k := Top(recs[..n]);
      assert recs[..n][k] == recs[k];
      assert forall j :: 0 <= j < n ==> recs[j] == recs[..n][j];
      if recs[n].intentSeq > recs[k].intentSeq then n else k
  }

  /** Only a committed last record decides an outcome. */
  function Committed(recs: seq<Record>): Option<Record> {
    if recs == [] || recs[Top(recs)].hash == "" then None else Some(recs[Top(recs)])
  }

  /** No record, or none committed in terminal position. */
  predicate Uncommitted(recs: seq<Record>) { forall k :: 0 <= k < |recs| && IsTop(recs, k) ==> recs[k].hash == "" }

  lemma TopUnique(recs: seq<Record>, j: nat, k: nat)
    requires IsTop(recs, j) && IsTop(recs, k)
    ensures j == k
  {
    assert recs[k].intentSeq <= recs[j].intentSeq && recs[j].intentSeq <= recs[k].intentSeq;
  }

  method TerminalPosition(recs: seq<Record>) returns (r: Option<Record>)
    ensures r == Committed(recs)
  {
    hide Top;
    if |recs| == 0 {
      return None;
    }
    var max := recs[0];
    ghost var top := 0;
    for i := 1 to |recs|
      invariant 0 <= top < i && max == recs[top]
      invariant forall j :: 0 <= j < i ==> recs[j].intentSeq <= max.intentSeq
      invariant forall j :: 0 <= j < top ==> recs[j].intentSeq < max.intentSeq
    {
      if recs[i].intentSeq > max.intentSeq {
        max, top := recs[i], i;
      }
    }
    TopUnique(recs, top, Top(recs));
    if max.hash == "" {
      return None;
    }
    return Some(max);
  }

  // ---------------------------------------------------- one declaration

  /** What the POST brought back. */
  datatype Response = Reply(terminal: string, reason: string) | Garbled | Status(code: int)

  /** What the feed consult brought back. */
  datatype Consult = Unreachable | Found(recs: seq<Record>)

  datatype Result = Result(
    status: int, terminal: Option<(string, string)>, verdict: Verdict, consulted: bool)

  /** The decision part of `Declare`. */
  function Decide(response: Response, consult: Consult): Result {
    match response
    case Reply(terminal, reason) => Result(200, Some((terminal, reason)), Classify(terminal, reason), false)
    case Garbled => Result(200, None, Verdict(Unknown, false), false)
    case Status(code) =>
      if code == 400 then Result(400, None, Verdict(SDKBug, true), false)
      else if consult.Unreachable? then Result(code, None, Verdict(Indeterminate, false), false)
      else
        var committed := Committed(consult.recs);
        Result(code, None,
               if committed.Some? then ClassifyRecord(committed.value.typ, committed.value.detail)
               else Verdict(Indeterminate, false), true)
  }

  /** The consult comes before the decision, and an unreachable feed decides
      nothing. */
  method Declare(response: Response, consult: Consult) returns (res: Result)
    ensures res == Decide(response, consult)
    ensures res.consulted <==> response.Status? && response.code != 400 && consult.Found?
    ensures response.Status? && response.code != 400 && (consult.Unreachable? || Uncommitted(consult.recs)) ==>
      res.verdict == Verdict(Indeterminate, false)
    ensures response.Garbled? ==> res.verdict == Verdict(Unknown, false)
    ensures res.terminal.Some? <==> response.Reply?
    ensures response.Reply? ==>
      && res.status == 200 && res.terminal == Some((response.terminal, response.reason))
      && res.verdict == Classify(response.terminal, response.reason)
    ensures response.Status? ==>
      && res.status == response.code && (response.code == 400 ==> res.verdict == Verdict(SDKBug, true))
      && (res.consulted ==> forall k :: 0 <= k < |consult.recs| && IsTop(consult.recs, k)
                                         && consult.recs[k].hash != "" ==>
            res.verdict == ClassifyRecord(consult.recs[k].typ, consult.recs[k].detail))
  {
    forall recs: seq<Record>, j: nat, k: nat | IsTop(recs, j) && IsTop(recs, k)
      ensures j == k
    {
      TopUnique(recs, j, k);
    }
    hide Classify, ClassifyRecord, Top;
    match response {
      case Reply(terminal, reason) =>
        res := Result(200, Some((terminal, reason)), Classify(terminal, reason), false);
      case Garbled =>
        res := Result(200, None, Verdict(Unknown, false), false);
      case Status(code) =>
        if code == 400 {
          return Result(400, None, Verdict(SDKBug, true), false);
        }
        res := Result(code, None, Verdict(Indeterminate, false), false);
        if consult.Unreachable? {
          return;
        }
        res := res.(consulted := true);
        var term := TerminalPosition(consult.recs);
        if term.Some? {
          res := res.(verdict := ClassifyRecord(term.value.typ, term.value.detail));
        }
    }
  }

  /** The only door to execution: a Proceed that arrived on this call's own
      synchronous response. */
  predicate FreshProceed(res: Result) { res.verdict.class_ == Proceed && res.status == 200 && res.terminal.Some? }

  lemma OnlyReplyProceeds(response: Response, consult: Consult)
    ensures FreshProceed(Decide(response, consult)) <==>
            response.Reply? && response.terminal == "ACHIEVED"
  {
    hide ClassifyRecord;
  }
}
