// The plane beside its spec store: the tombstones the gate consults are those
// the store's accepted revocations have written.

module Revocation {
  import opened Text
  import opened Hashing
  import opened Lifecycle
  import opened Gate
  import opened Plane
  import opened PlaneRuns
  import Intents
  import SpecStore

  /** The plane and the store calls made so far. */
  datatype Joint = Joint(plane: State, ops: seq<SpecStore.Op>)

  datatype Act = Gate(e: Event) | Store(op: SpecStore.Op)

  /** What the calls so far have revoked. */
  function Revoked(pl: SpecStore.Plane, ops: seq<SpecStore.Op>): map<string, string> {
    SpecStore.AbstractAfter(pl, ops).revoked
  }

  /** The gate's own steps leave the store alone; a store call leaves the runs
      and the gate's files alone. */
  ghost predicate JointStep(h: Digest, pl: SpecStore.Plane, a: Joint, act: Act, b: Joint) {
    match act
    case Gate(e) => !e.Revoke? && Step(h, a.plane, e, b.plane) && b.ops == a.ops
    case Store(op) => b.ops == a.ops + [op] && b.plane == a.plane.(tombs := Revoked(pl, b.ops))
  }

  ghost predicate History(h: Digest, pl: SpecStore.Plane, js: seq<Joint>, acts: seq<Act>) {
    && |js| == |acts| + 1 && js[0] == Joint(INIT, [])
    && forall k :: 0 <= k < |acts| ==> JointStep(h, pl, js[k], acts[k], js[k + 1])
  }

  /** The plane's tombstones are the store's, whatever was published, revoked,
      refused, run or crashed. */
  ghost predicate Tied(h: Digest, pl: SpecStore.Plane, j: Joint) {
    Inv(h, j.plane) && j.plane.tombs == Revoked(pl, j.ops)
  }

  /** A store call is a revocation of the plane, or nothing to it. */
  lemma StoreIsRevoke(h: Digest, pl: SpecStore.Plane, a: Joint, op: SpecStore.Op, b: Joint)
    requires a.plane.tombs == Revoked(pl, a.ops) && JointStep(h, pl, a, Store(op), b)
    ensures || b.plane == a.plane
            || exists hash, ref :: Step(h, a.plane, Event.Revoke(hash, ref), b.plane)
  {
    hide SpecStore.ReadSpec, SpecStore.ReadTomb, IsHash;
    assert (a.ops + [op])[..|a.ops|] == a.ops;
    var before := SpecStore.AbstractAfter(pl, a.ops);
    assert SpecStore.AbstractAfter(pl, b.ops) == SpecStore.AbstractStep(pl, before, op);
    if op.Revoke? {
      var r := SpecStore.ReadTomb(pl, Some(op.tomb));
      if r.Some? && IsHash(r.value.revoke) {
        assert Step(h, a.plane, Event.Revoke(r.value.revoke, r.value.ref), b.plane);
      }
    }
  }

  lemma GateKeepsTombs(h: Digest, p: State, e: Event, p': State)
    requires AnyStep(h, p, e, p') && !e.Revoke?
    ensures p'.tombs == p.tombs
  {}

  lemma StepTied(h: Digest, pl: SpecStore.Plane, a: Joint, act: Act, b: Joint)
    requires Tied(h, pl, a) && JointStep(h, pl, a, act, b)
    ensures Tied(h, pl, b)
  {
    hide Inv, AnyStep, Revoked, Named;
    match act
    case Gate(e) =>
      StepInv(h, a.plane, e, b.plane);
      GateKeepsTombs(h, a.plane, e, b.plane);
    case Store(op) => RevokeInv(h, a.plane, b.plane);
  }

  lemma {:induction false} HistoryTied(h: Digest, pl: SpecStore.Plane, js: seq<Joint>, acts: seq<Act>, k: nat)
    requires History(h, pl, js, acts) && k < |js|
    ensures Tied(h, pl, js[k])
    decreases k
  {
    hide Inv, JointStep;
    if k == 0 {
      InitInv(h);
    } else {
      HistoryTied(h, pl, js, acts, k - 1);
      assert JointStep(h, pl, js[k - 1], acts[k - 1], js[k - 1 + 1]);
      StepTied(h, pl, js[k - 1], acts[k - 1], js[k]);
    }
  }

  /** `RevokedRef` on the files the calls so far have left answers as the
      plane's tombstones say. */
  lemma StoreAnswers(h: Digest, pl: SpecStore.Plane, j: Joint, hash: string)
    requires Tied(h, pl, j)
    ensures SpecStore.RefOf(pl, SpecStore.FilesAfter(pl, j.ops), hash) == Tombstone(j.plane, hash)
  {
    hide Inv, IsHash, SpecStore.ReadSpec, SpecStore.ReadTomb, SpecStore.FilesAfter, SpecStore.AbstractAfter;
    SpecStore.AfterRepresents(pl, j.ops);
  }

  /** A run that consults the revocation signal is answered by the store. */
  ghost predicate ConsultsStore(h: Digest, pl: SpecStore.Plane, a: Joint, act: Act) {
    act.Gate? && act.e.Move? && act.e.id in a.plane.runs ==>
      var r := a.plane.runs[act.e.id];
      var ref := SpecStore.RefOf(pl, SpecStore.FilesAfter(pl, a.ops), r.job.intent.specHash);
      && (r.snap.pc.FirstCheck? ==> r.world.first == ref)
      && (r.snap.pc.EdgeCheck? ==> r.world.edge == ref)
  }

  /** The declarations of `id` are under this spec. */
  ghost predicate Under(h: Digest, act: Act, id: string, hash: string) {
    act.Gate? && act.e.Start? && Intents.Id(h, act.e.job.intent) == id ==> act.e.job.intent.specHash == hash
  }

  lemma JointBarred(h: Digest, pl: SpecStore.Plane, a: Joint, act: Act, b: Joint, id: string, hash: string)
    requires Tied(h, pl, a) && JointStep(h, pl, a, act, b) && ConsultsStore(h, pl, a, act) && Under(h, act, id, hash)
    requires Barred(a.plane, id, hash)
    ensures Barred(b.plane, id, hash)
  {
    hide Inv, AnyStep, Barred, Revoked, SpecStore.RefOf, SpecStore.FilesAfter, Intents.Id, Named;
    match act
    case Gate(e) =>
      if e.Move? && e.id in a.plane.runs {
        StoreAnswers(h, pl, a, a.plane.runs[e.id].job.intent.specHash);
      }
      StepBarred(h, a.plane, e, b.plane, id, hash);
    case Store(op) =>
      StoreIsRevoke(h, pl, a, op, b);
      if b.plane != a.plane {
        var other, ref :| Step(h, a.plane, Event.Revoke(other, ref), b.plane);
        StepBarred(h, a.plane, Event.Revoke(other, ref), b.plane, id, hash);
      }
  }

  /** Revocation is effective and permanent, store and gate together: once the
      store answers that a spec is revoked it always does, and a run under that
      spec which has not passed its dispatch-edge check (or has not started)
      never reserves its key and never emits ACHIEVED or SHADOW_RECORDED, under
      any interleaving of publishes and revokes with runs and crashes. */
  lemma {:induction false} StoreRevocationEffective(
    h: Digest, pl: SpecStore.Plane, js: seq<Joint>, acts: seq<Act>, i: nat, j: nat, id: string, hash: string)
    requires History(h, pl, js, acts) && i <= j < |js|
    requires forall k :: 0 <= k < |acts| ==> ConsultsStore(h, pl, js[k], acts[k]) && Under(h, acts[k], id, hash)
    requires SpecStore.RefOf(pl, SpecStore.FilesAfter(pl, js[i].ops), hash).Some?
    requires id in js[i].plane.runs ==>
      js[i].plane.runs[id].job.intent.specHash == hash && !PastEdge(js[i].plane.runs[id].snap.pc)
    ensures SpecStore.RefOf(pl, SpecStore.FilesAfter(pl, js[j].ops), hash).Some?
    ensures id in js[j].plane.runs ==>
      var pc := js[j].plane.runs[id].snap.pc; !PastEdge(pc) && !Holds(pc)
    ensures Barred(js[j].plane, id, hash)
    decreases j - i
  {
    hide Inv, JointStep, ConsultsStore, Under, SpecStore.RefOf, SpecStore.FilesAfter;
    HistoryTied(h, pl, js, acts, j);
    StoreAnswers(h, pl, js[j], hash);
    if i < j {
      StoreRevocationEffective(h, pl, js, acts, i, j - 1, id, hash);
      HistoryTied(h, pl, js, acts, j - 1);
      assert JointStep(h, pl, js[j - 1], acts[j - 1], js[j - 1 + 1]);
      assert ConsultsStore(h, pl, js[j - 1], acts[j - 1]) && Under(h, acts[j - 1], id, hash);
      JointBarred(h, pl, js[j - 1], acts[j - 1], js[j], id, hash);
    }
  }
}
