// Intents, and the lifecycle graph (core/internal/intent, core/internal/lifecycle).

module Intents {
  import opened Hashing

  datatype Criterion = Criterion(name: string, threshold: real, volatility: string)

  datatype Resolution = Resolution(attested: bool, source: string, keyId: string, revokedRef: string)

  datatype Spec = Spec(
    actionClass: string, criteria: seq<Criterion>, scope: string, posture: string, humanJudgment: seq<string>)

  datatype Intent = Intent(
    seed: string, spec: Spec, key: string, ruleHash: string, specHash: string, resolution: Resolution)

  /** Sixteen hex characters of the seed's digest. */
  function Id(h: Digest, i: Intent): (id: string)
    ensures |id| == 16
  {
    h(i.seed)[..16]
  }

  /** Two intents share an id exactly when the first sixteen characters of their
      seeds' digests agree. */
  lemma SameIdExactly(h: Digest, i: Intent, j: Intent)
    ensures Id(h, i) == Id(h, j) <==> forall k :: 0 <= k < 16 ==> h(i.seed)[k] == h(j.seed)[k]
    ensures Id(h, i) <= h(i.seed)
  {
    if Id(h, i) == Id(h, j) {
      forall k | 0 <= k < 16
        ensures h(i.seed)[k] == h(j.seed)[k]
      {
        assert Id(h, i)[k] == Id(h, j)[k];
      }
    }
  }

  /** What the resolver guarantees: only a content address is ever attested. */
  predicate WellResolved(i: Intent) { i.resolution.attested ==> i.specHash != "" }
}

module Lifecycle {
  /** The closed set of event types. Eight of them are lifecycle states. */
  datatype Kind =
    | DECLARED | RESOLVING | ACTIVE | VERIFYING
    | ACHIEVED | FAILED | FAILED_AT_DISPATCH | SHADOW_RECORDED
    | SCORED | RECHECK | UNEVALUABLE | REVOKED | IDEMPOTENCY_RESERVED

  function Name(k: Kind): string {
    match k
    case DECLARED => "DECLARED"
    case RESOLVING => "RESOLVING"
    case ACTIVE => "ACTIVE"
    case VERIFYING => "VERIFYING"
    case ACHIEVED => "ACHIEVED"
    case FAILED => "FAILED"
    case FAILED_AT_DISPATCH => "FAILED_AT_DISPATCH"
    case SHADOW_RECORDED => "SHADOW_RECORDED"
    case SCORED => "SCORED"
    case RECHECK => "RECHECK"
    case UNEVALUABLE => "UNEVALUABLE"
    case REVOKED => "REVOKED"
    case IDEMPOTENCY_RESERVED => "IDEMPOTENCY_RESERVED"
  }

  lemma NameInjective(a: Kind, b: Kind)
    requires Name(a) == Name(b)
    ensures a == b
  {
    NameKey(a);
    NameKey(b);
  }

  /** Length, first and second letter tell the thirteen names apart. */
  lemma NameKey(k: Kind)
    ensures |Name(k)| >= 3
    ensures
      var n := Name(k);
      match k
      case DECLARED => |n| == 8 && n[0] == 'D'
      case RESOLVING => |n| == 9 && n[0] == 'R'
      case ACTIVE => |n| == 6 && n[0] == 'A'
      case VERIFYING => |n| == 9 && n[0] == 'V'
      case ACHIEVED => |n| == 8 && n[0] == 'A'
      case FAILED => |n| == 6 && n[0] == 'F'
      case FAILED_AT_DISPATCH => |n| == 18
      case SHADOW_RECORDED => |n| == 15
      case SCORED => |n| == 6 && n[0] == 'S'
      case RECHECK => |n| == 7 && n[2] == 'C'
      case UNEVALUABLE => |n| == 11
      case REVOKED => |n| == 7 && n[2] == 'V'
      case IDEMPOTENCY_RESERVED => |n| == 20
  {}

  predicate IsState(k: Kind) {
    k in {DECLARED, RESOLVING, ACTIVE, VERIFYING, ACHIEVED, FAILED, FAILED_AT_DISPATCH, SHADOW_RECORDED}
  }

  predicate IsTerminal(k: Kind) { k in {ACHIEVED, FAILED, FAILED_AT_DISPATCH, SHADOW_RECORDED} }

  /** The table of allowed edges; terminal states are absent as keys. */
  const ALLOWED_TRANSITIONS: map<Kind, set<Kind>> := map[
    DECLARED := {RESOLVING},
    RESOLVING := {ACTIVE, FAILED},
    ACTIVE := {VERIFYING, FAILED},
    VERIFYING := {ACHIEVED, FAILED, FAILED_AT_DISPATCH, SHADOW_RECORDED}]

  predicate IsValidTransition(from: Kind, to: Kind) {
    from in ALLOWED_TRANSITIONS && to in ALLOWED_TRANSITIONS[from]
  }
}
