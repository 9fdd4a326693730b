// The randomized loop's own classification, and where it agrees with the
// declarant's.

module LoopClasses {
  import opened Text
  import D = Declarant

  const TAGS := ["unevaluable:absent-key", "unevaluable:unattested-spec", "unevaluable:invalid-posture",
                 "unevaluable:empty-criteria", "unevaluable:invalid-volatility", "unevaluable:human-judgment"]

  /** The thirteen classes of the loop, six of them named by a tag, and its
      report of anything else. */
  datatype Bucket =
    | Achieved | ShadowRecorded | Collision | Denied | Revoked | Recheck | Tag(k: nat) | Criterion
    | Unlisted(terminal: string)

  /** The first tag from `k` on that the reason starts with, or the number of
      tags. */
  function TagFrom(reason: string, k: nat): (t: nat)
    requires k <= |TAGS|
    ensures k <= t <= |TAGS| && (t < |TAGS| ==> HasPrefix(reason, TAGS[t]))
    ensures forall j :: k <= j < t ==> !HasPrefix(reason, TAGS[j])
    decreases |TAGS| - k
  {
    if k == |TAGS| || HasPrefix(reason, TAGS[k]) then k else TagFrom(reason, k + 1)
  }

  function BucketOf(terminal: string, reason: string): Bucket {
    if terminal == "ACHIEVED" then Achieved
    else if terminal == "SHADOW_RECORDED" then ShadowRecorded
    else if reason == "idempotency-collision" then Collision
    else if HasPrefix(reason, "volatile-recheck:") then Recheck
    else if HasPrefix(reason, "revoked:") then Revoked
    else if TagFrom(reason, 0) < |TAGS| then Tag(TagFrom(reason, 0))
    else if HasPrefix(reason, "unevaluable:") then Criterion
    else if reason != "" then Denied
    else Unlisted(terminal)
  }

  /** `classify`, with its loop over the tags. */
  method Classify(terminal: string, reason: string) returns (bucket: Bucket)
    ensures bucket == BucketOf(terminal, reason)
  {
    if terminal == "ACHIEVED" {
      return Achieved;
    }
    if terminal == "SHADOW_RECORDED" {
      return ShadowRecorded;
    }
    if reason == "idempotency-collision" {
      return Collision;
    }
    if HasPrefix(reason, "volatile-recheck:") {
      return Recheck;
    }
    if HasPrefix(reason, "revoked:") {
      return Revoked;
    }
    for k := 0 to |TAGS|
      invariant TagFrom(reason, 0) == TagFrom(reason, k)
    {
      if HasPrefix(reason, TAGS[k]) {
        return Tag(k);
      }
    }
    if HasPrefix(reason, "unevaluable:") {
      return Criterion;
    }
    if reason != "" {
      return Denied;
    }
    return Unlisted(terminal);
  }

  /** The declarant's class a bucket stands for; the buckets of a defective spec
      are told apart by the loop only. */
  function ClassOf(bucket: Bucket): D.Class {
    match bucket
    case Achieved => D.Proceed
    case ShadowRecorded => D.ShadowRecorded
    case Collision => D.AlreadyReserved
    case Denied => D.PolicyDenied
    case Revoked => D.Revoked
    case Recheck => D.FactDrift
    case Tag(k) =>
      if k == 0 then D.SDKBug else if k == 1 then D.SpecUnattested else if k == 5 then D.HumanJudgment else D.SpecDefect
    case Criterion => D.Unevaluable
    case Unlisted(_) => D.Unknown
  }

  /** A reason both read alike: a tag is the whole reason, or is followed by a
      colon where the vocabulary puts one; any other colon follows a known
      prefix; and no criterion is named after the collision. */
  predicate Aligned(reason: string) {
    && reason != "idempotency-collision"
    && (':' in reason ==> D.Placed(reason))
    && (forall k :: 0 <= k < |TAGS| && HasPrefix(reason, TAGS[k]) ==>
         Proper(reason, k))
  }

  predicate Agrees(terminal: string, reason: string) {
    ClassOf(BucketOf(terminal, reason)) == D.Classify(terminal, reason).class_
  }

  /** No two tags start one reason. */
  lemma OneTag(reason: string, j: nat, k: nat)
    requires j < |TAGS| && k < |TAGS| && HasPrefix(reason, TAGS[j]) && HasPrefix(reason, TAGS[k])
    ensures j == k
  {
    assert TAGS[j][12] == reason[12] == TAGS[k][12] && TAGS[j][13] == reason[13] == TAGS[k][13];
    assert TAGS[j][20] == reason[20] == TAGS[k][20];
  }

  /** The whole reason a tag is for. */
  predicate Proper(reason: string, k: nat)
    requires k < |TAGS|
  {
    if k < 4 then reason == TAGS[k] else HasPrefix(reason, TAGS[k] + ":")
  }

  /** The bucket of a tagged reason is the tag. */
  lemma TaggedBucket(reason: string, k: nat)
    requires k < |TAGS| && HasPrefix(reason, TAGS[k])
    ensures BucketOf("FAILED", reason) == Tag(k) && HasPrefix(reason, "unevaluable:")
  {
    assert TAGS[k][0] == 'u' && reason[0] == 'u' && TAGS[k][..12] == "unevaluable:";
    assert reason[..12] == TAGS[k][..12];
    var t := TagFrom(reason, 0);
    hide TagFrom;
    OneTag(reason, t, k);
  }

  /** What the declarant makes of a tagged reason. */
  lemma TaggedClass(reason: string, k: nat)
    requires k < |TAGS| && HasPrefix(reason, TAGS[k])
    ensures D.ClassifyFailed(reason).class_ == if Proper(reason, k) then ClassOf(Tag(k)) else D.Unevaluable
  {
    TaggedFixed(reason, k);
    TaggedNamed(reason, k);
    hide HasPrefix, Proper;
  }

  lemma TaggedFixed(reason: string, k: nat)
    requires k < |TAGS| && HasPrefix(reason, TAGS[k])
    ensures reason == "unevaluable:absent-key" <==> k == 0 && Proper(reason, k)
    ensures reason == "unevaluable:unattested-spec" <==> k == 1 && Proper(reason, k)
    ensures reason == "unevaluable:invalid-posture" <==> k == 2 && Proper(reason, k)
    ensures reason == "unevaluable:empty-criteria" <==> k == 3 && Proper(reason, k)
  {
    Others(reason, k);
    hide HasPrefix;
    assert (k != 0 ==> reason != TAGS[0]) && (k != 1 ==> reason != TAGS[1]);
    assert (k != 2 ==> reason != TAGS[2]) && (k != 3 ==> reason != TAGS[3]);
  }

  lemma TaggedNamed(reason: string, k: nat)
    requires k < |TAGS| && HasPrefix(reason, TAGS[k])
    ensures HasPrefix(reason, "unevaluable:invalid-volatility:") <==> k == 4 && Proper(reason, k)
    ensures HasPrefix(reason, "unevaluable:human-judgment:") <==> k == 5 && Proper(reason, k)
    ensures HasPrefix(reason, "unevaluable:") && !HasPrefix(reason, "revoked:")
  {
    Others(reason, k);
    TaggedBucket(reason, k);
    assert reason[0] == 'u';
    assert !HasPrefix(reason, "revoked:");
    hide HasPrefix;
    assert TAGS[4] + ":" == "unevaluable:invalid-volatility:" && TAGS[5] + ":" == "unevaluable:human-judgment:";
    assert k != 4 ==> !HasPrefix(reason, TAGS[4] + ":");
    assert k != 5 ==> !HasPrefix(reason, TAGS[5] + ":");
  }

  lemma Others(reason: string, k: nat)
    requires k < |TAGS| && HasPrefix(reason, TAGS[k])
    ensures forall m :: 0 <= m < |TAGS| && m != k ==> reason != TAGS[m] && !HasPrefix(reason, TAGS[m] + ":")
  {
    forall m | 0 <= m < |TAGS| && m != k
      ensures reason != TAGS[m] && !HasPrefix(reason, TAGS[m] + ":")
    {
      if HasPrefix(reason, TAGS[m] + ":") {
        assert HasPrefix(reason, TAGS[m]);
      }
      if HasPrefix(reason, TAGS[m]) {
        OneTag(reason, m, k);
      }
    }
  }

  lemma TaggedAgrees(reason: string, k: nat)
    requires k < |TAGS| && HasPrefix(reason, TAGS[k])
    ensures Agrees("FAILED", reason) <==> Aligned(reason)
  {
    TaggedBucket(reason, k);
    TaggedClass(reason, k);
    assert reason[0] == 'u';
    forall m | 0 <= m < |TAGS| && HasPrefix(reason, TAGS[m])
      ensures m == k
    {
      OneTag(reason, m, k);
    }
    hide BucketOf, D.ClassifyFailed;
  }

  /** A reason that starts with no tag. */
  lemma UntaggedAgrees(reason: string)
    requires forall k :: 0 <= k < |TAGS| ==> !HasPrefix(reason, TAGS[k])
    ensures Agrees("FAILED", reason) <==> Aligned(reason)
  {
    UntaggedClass(reason);
    UntaggedBucket(reason);
    Colons(reason);
    hide HasPrefix, Proper, D.ClassifyFailed, BucketOf;
  }

  lemma UntaggedBucket(reason: string)
    requires forall k :: 0 <= k < |TAGS| ==> !HasPrefix(reason, TAGS[k])
    ensures BucketOf("FAILED", reason) ==
      if reason == "idempotency-collision" then Collision
      else if HasPrefix(reason, "volatile-recheck:") then Recheck
      else if HasPrefix(reason, "revoked:") then Revoked
      else if HasPrefix(reason, "unevaluable:") then Criterion
      else if reason != "" then Denied
      else Unlisted("FAILED")
  {
    var t := TagFrom(reason, 0);
    hide TagFrom, HasPrefix;
  }

  /** The prefixes hold a colon and exclude one another. */
  lemma Colons(reason: string)
    ensures D.Placed(reason) ==>
      ':' in reason && reason != "idempotency-collision" && !HasPrefix(reason, "volatile-recheck:")
    ensures HasPrefix(reason, "volatile-recheck:") ==> ':' in reason && reason != ""
    ensures reason == "idempotency-collision" ==> reason != "" && ':' !in reason
    ensures HasPrefix(reason, "revoked:") ==> !HasPrefix(reason, "unevaluable:")
  {
    assert HasPrefix(reason, "volatile-recheck:") ==> reason[16] == ':' && reason[0] == 'v';
    assert HasPrefix(reason, "revoked:") ==> reason[7] == ':' && reason[0] == 'r';
    assert HasPrefix(reason, "unevaluable:") ==> reason[11] == ':' && reason[0] == 'u';
    assert reason == "idempotency-collision" ==> reason[0] == 'i';
  }

  lemma UntaggedClass(reason: string)
    requires forall k :: 0 <= k < |TAGS| ==> !HasPrefix(reason, TAGS[k])
    ensures D.ClassifyFailed(reason).class_ ==
      if HasPrefix(reason, "revoked:") then D.Revoked
      else if HasPrefix(reason, "unevaluable:") then D.Unevaluable
      else if reason != "" && ':' !in reason then D.PolicyDenied
      else D.Unknown
  {
    assert !HasPrefix(reason, TAGS[0]) && !HasPrefix(reason, TAGS[1]) && !HasPrefix(reason, TAGS[2]);
    assert !HasPrefix(reason, TAGS[3]) && !HasPrefix(reason, TAGS[4]) && !HasPrefix(reason, TAGS[5]);
    Shorter(reason, TAGS[4], "unevaluable:invalid-volatility:");
    Shorter(reason, TAGS[5], "unevaluable:human-judgment:");
  }

  lemma Shorter(reason: string, p: string, q: string)
    requires p <= q
    ensures HasPrefix(reason, q) ==> HasPrefix(reason, p)
  {}

  /** A failed run's reason lands in a bucket of the declarant's class exactly
      when it is aligned. */
  lemma FailedAgrees(reason: string)
    ensures Agrees("FAILED", reason) <==> Aligned(reason)
  {
    hide Agrees, Aligned;
    if k :| 0 <= k < |TAGS| && HasPrefix(reason, TAGS[k]) {
      TaggedAgrees(reason, k);
    } else {
      UntaggedAgrees(reason);
    }
  }

  /** The other terminals of the gate's vocabulary are read alike. */
  lemma OthersAgree(terminal: string, reason: string)
    requires || terminal == "ACHIEVED" || terminal == "SHADOW_RECORDED"
             || (terminal == "FAILED_AT_DISPATCH" && (reason == "idempotency-collision"
                  || HasPrefix(reason, "volatile-recheck:") || HasPrefix(reason, "revoked:")))
    ensures Agrees(terminal, reason)
  {
    hide TagFrom;
    if terminal == "FAILED_AT_DISPATCH" {
      assert reason[0] == 'i' || reason[0] == 'v' || reason[0] == 'r';
    }
  }

  /** Reasons the two read differently. */
  lemma Misaligned()
    ensures !Aligned("limit:daily") && BucketOf("FAILED", "limit:daily") == Denied
    ensures !Aligned("unevaluable:absent-key-x") && BucketOf("FAILED", "unevaluable:absent-key-x") == Tag(0)
  {
    assert "limit:daily"[5] == ':' && "limit:daily"[0] == 'l';
    var other := "unevaluable:absent-key-x";
    assert other[..|TAGS[0]|] == TAGS[0];
    TaggedBucket(other, 0);
  }
}
