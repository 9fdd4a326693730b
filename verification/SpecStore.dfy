// The content-addressed spec store (plane/store.go) as a pair of maps, and the
// handler that turns what it resolves into an intent (core/cmd/server).

module SpecStore {
  import opened Text
  import opened Hashing
  import opened Envelopes
  import Intents

  datatype Criterion = Criterion(name: string, threshold: real, volatility: string)

  datatype SpecPayload = SpecPayload(
    actionClass: string, posture: string, criteria: seq<Criterion>, humanJudgment: seq<string>)

  datatype Revocation = Revocation(revoke: string, ref: string)

  /** The trust root, the digest, and the strict payload parsers. */
  datatype Plane = Plane(
    trust: Trust, h: Digest, parseSpec: Bytes -> Option<SpecPayload>, parseRevocation: Bytes -> Option<Revocation>)

  /** What a stored file decodes to; litter decodes to nothing. */
  type Content = Option<Envelope>

  /** <hash>.env.json, <hash>.pin and <hash>.revoked.json. */
  datatype Files = Files(specs: map<string, Content>, pins: set<string>, tombs: map<string, Content>)

  const NO_FILES := Files(map[], {}, map[])

  // ---------------------------------------------------- reading

  datatype Attested = Attested(address: string, payload: SpecPayload, keyId: string)

  /** A spec envelope that verifies and parses, with its content address. */
  function ReadSpec(pl: Plane, c: Content): Option<Attested> {
    if c.None? then None
    else match Check(pl.trust, c.value, SPEC_TYPE)
      case None => None
      case Some(v) =>
        var p := pl.parseSpec(v.payload);
        if p.None? then None else Some(Attested(pl.h(v.payload), p.value, v.keyId))
  }

  function ReadTomb(pl: Plane, c: Content): Option<Revocation> {
    if c.None? then None
    else match Check(pl.trust, c.value, REVOCATION_TYPE)
      case None => None
      case Some(v) => pl.parseRevocation(v.payload)
  }

  /** The ref of a verified tombstone for exactly this hash. */
  function RefOf(pl: Plane, f: Files, hash: string): Option<string> {
    if !IsHash(hash) || hash !in f.tombs then None
    else
      var r := ReadTomb(pl, f.tombs[hash]);
      if r.Some? && r.value.revoke == hash then Some(r.value.ref) else None
  }

  datatype Answer = Unattested | RevokedBy(ref: string) | Resolved(payload: SpecPayload, source: string, keyId: string)

  function FromEnvelope(pl: Plane, c: Content, hash: string, source: string): Answer {
    match ReadSpec(pl, c)
    case None => Unattested
    case Some(a) => if a.address == hash then Resolved(a.payload, source, a.keyId) else Unattested
  }

  /** Hybrid rule: the store decides; a wire envelope only stands in for a
      missing file of a pinned hash. */
  function ResolveIn(pl: Plane, f: Files, hash: string, wire: Option<Content>): Answer {
    if !IsHash(hash) then Unattested
    else if RefOf(pl, f, hash).Some? then RevokedBy(RefOf(pl, f, hash).value)
    else if hash in f.specs then FromEnvelope(pl, f.specs[hash], hash, "store")
    else if wire.Some? && hash in f.pins then FromEnvelope(pl, wire.value, hash, "wire")
    else Unattested
  }

  // ---------------------------------------------------- the store object

  class Store {
    const pl: Plane
    var specs: map<string, Content>
    var pins: set<string>
    var tombs: map<string, Content>

    ghost function View(): Files
      reads this
    {
      Files(specs, pins, tombs)
    }

    constructor (pl: Plane)
      ensures this.pl == pl && View() == NO_FILES
    {
      this.pl := pl;
      specs, pins, tombs := map[], {}, map[];
    }

    /** Attest, then write: an unverifiable envelope never enters the store. */
    method Publish(env: Envelope) returns (hash: Option<string>)
      modifies this
      ensures View() == AfterPublish(pl, old(View()), env)
      ensures hash == if ReadSpec(pl, Some(env)).Some? then Some(ReadSpec(pl, Some(env)).value.address) else None
    {
      var v := Verify(pl.trust, env, SPEC_TYPE);
      if v.None? {
        return None;
      }
      if pl.parseSpec(v.value.payload).None? {
        return None;
      }
      var address: string := pl.h(v.value.payload);
      specs := specs[address := Some(env)];
      pins := pins + {address};
      return Some(address);
    }

    method Revoke(tomb: Envelope) returns (r: Option<Revocation>)
      modifies this
      ensures View() == AfterRevoke(pl, old(View()), tomb)
      ensures r.Some? <==> ReadTomb(pl, Some(tomb)).Some? && IsHash(ReadTomb(pl, Some(tomb)).value.revoke)
      ensures r.Some? ==> r == ReadTomb(pl, Some(tomb))
    {
      var v := Verify(pl.trust, tomb, REVOCATION_TYPE);
      if v.None? {
        return None;
      }
      var rp := pl.parseRevocation(v.value.payload);
      if rp.None? || !IsHash(rp.value.revoke) {
        return None;
      }
      tombs := tombs[rp.value.revoke := Some(tomb)];
      return rp;
    }

    method RevokedRef(hash: string) returns (ref: Option<string>)
      ensures ref == RefOf(pl, View(), hash)
    {
      if !IsHash(hash) || hash !in tombs || tombs[hash].None? {
        return None;
      }
      var v := Verify(pl.trust, tombs[hash].value, REVOCATION_TYPE);
      if v.None? {
        return None;
      }
      var rp := pl.parseRevocation(v.value.payload);
      if rp.None? || rp.value.revoke != hash {
        return None;
      }
      return Some(rp.value.ref);
    }

    method Resolve(hash: string, wire: Option<Content>) returns (a: Answer)
      ensures a == ResolveIn(pl, View(), hash, wire)
    {
      if !IsHash(hash) {
        return Unattested;
      }
      var ref := RevokedRef(hash);
      if ref.Some? {
        return RevokedBy(ref.value);
      }
      if hash in specs {
        a := Open(specs[hash], hash, "store");
        return;
      }
      if wire.Some? && hash in pins {
        a := Open(wire.value, hash, "wire");
        return;
      }
      return Unattested;
    }

    method Open(c: Content, hash: string, source: string) returns (a: Answer)
      ensures a == FromEnvelope(pl, c, hash, source)
    {
      if c.None? {
        return Unattested;
      }
      var v := Verify(pl.trust, c.value, SPEC_TYPE);
      if v.None? || pl.h(v.value.payload) != hash {
        return Unattested;
      }
      var p := pl.parseSpec(v.value.payload);
      if p.None? {
        return Unattested;
      }
      return Resolved(p.value, source, v.value.keyId);
    }
  }

  function AfterPublish(pl: Plane, f: Files, env: Envelope): Files {
    match ReadSpec(pl, Some(env))
    case None => f
    case Some(a) => Files(f.specs[a.address := Some(env)], f.pins + {a.address}, f.tombs)
  }

  function AfterRevoke(pl: Plane, f: Files, tomb: Envelope): Files {
    match ReadTomb(pl, Some(tomb))
    case None => f
    case Some(r) => if IsHash(r.revoke) then Files(f.specs, f.pins, f.tombs[r.revoke := Some(tomb)]) else f
  }

  // ---------------------------------------------------- refinement to two maps

  /** The abstract store: what each hash means, and which are revoked. */
  datatype Abstract = Abstract(published: map<string, Attested>, revoked: map<string, string>)

  datatype Op = Publish(env: Envelope) | Revoke(tomb: Envelope)

  /** Accepted calls update one map at one hash; rejected ones do nothing. */
  function AbstractStep(pl: Plane, a: Abstract, op: Op): Abstract {
    match op
    case Publish(env) =>
      var r := ReadSpec(pl, Some(env));
      if r.Some? then a.(published := a.published[r.value.address := r.value]) else a
    case Revoke(tomb) =>
      var r := ReadTomb(pl, Some(tomb));
      if r.Some? && IsHash(r.value.revoke) then a.(revoked := a.revoked[r.value.revoke := r.value.ref]) else a
  }

  function FilesStep(pl: Plane, f: Files, op: Op): Files {
    match op
    case Publish(env) => AfterPublish(pl, f, env)
    case Revoke(tomb) => AfterRevoke(pl, f, tomb)
  }

  function FilesAfter(pl: Plane, ops: seq<Op>): Files {
    if ops == [] then NO_FILES else FilesStep(pl, FilesAfter(pl, ops[..|ops| - 1]), ops[|ops| - 1])
  }

  function AbstractAfter(pl: Plane, ops: seq<Op>): Abstract {
    if ops == [] then Abstract(map[], map[]) else AbstractStep(pl, AbstractAfter(pl, ops[..|ops| - 1]), ops[|ops| - 1])
  }

  /** The files say exactly what the two maps say. */
  ghost predicate Represents(pl: Plane, f: Files, a: Abstract) {
    && (forall hash :: hash in f.specs <==> hash in a.published)
    && (forall hash :: hash in f.pins <==> hash in a.published)
    && (forall hash :: hash in a.published ==>
          IsHash(hash) && a.published[hash].address == hash && ReadSpec(pl, f.specs[hash]) == Some(a.published[hash]))
    && (forall hash :: hash in f.tombs <==> hash in a.revoked)
    && (forall hash :: hash in a.revoked ==>
          IsHash(hash) && ReadTomb(pl, f.tombs[hash]) == Some(Revocation(hash, a.revoked[hash])))
  }

  lemma StepRepresents(pl: Plane, f: Files, a: Abstract, op: Op)
    requires Represents(pl, f, a)
    ensures Represents(pl, FilesStep(pl, f, op), AbstractStep(pl, a, op))
  {
    hide Represents, AfterPublish, AfterRevoke, ReadSpec, ReadTomb, IsHash;
    match op
    case Publish(env) => PublishRepresents(pl, f, a, env);
    case Revoke(tomb) => RevokeRepresents(pl, f, a, tomb);
  }

  lemma PublishRepresents(pl: Plane, f: Files, a: Abstract, env: Envelope)
    requires Represents(pl, f, a)
    ensures Represents(pl, AfterPublish(pl, f, env), AbstractStep(pl, a, Publish(env)))
  {
    hide IsHash, ReadSpec, ReadTomb;
    AddressIsHash(pl, Some(env));
  }

  lemma RevokeRepresents(pl: Plane, f: Files, a: Abstract, tomb: Envelope)
    requires Represents(pl, f, a)
    ensures Represents(pl, AfterRevoke(pl, f, tomb), AbstractStep(pl, a, Revoke(tomb)))
  {
    hide IsHash, ReadSpec, ReadTomb;
  }

  lemma AddressIsHash(pl: Plane, c: Content)
    ensures ReadSpec(pl, c).Some? ==> IsHash(ReadSpec(pl, c).value.address)
  {
    hide Check;
  }

  lemma {:induction false} AfterRepresents(pl: Plane, ops: seq<Op>)
    ensures Represents(pl, FilesAfter(pl, ops), AbstractAfter(pl, ops))
  {
    hide Represents;
    if ops == [] {
      EmptyRepresents(pl);
    } else {
      AfterRepresents(pl, ops[..|ops| - 1]);
      StepRepresents(pl, FilesAfter(pl, ops[..|ops| - 1]), AbstractAfter(pl, ops[..|ops| - 1]), ops[|ops| - 1]);
    }
  }

  lemma EmptyRepresents(pl: Plane)
    ensures Represents(pl, NO_FILES, Abstract(map[], map[]))
  {}

  /** What the two maps resolve a hash to; the wire does not appear. */
  function Meaning(a: Abstract, hash: string): Answer {
    if hash in a.revoked then RevokedBy(a.revoked[hash])
    else if hash in a.published then Resolved(a.published[hash].payload, "store", a.published[hash].keyId)
    else Unattested
  }

  /** Refinement: after any sequence of accepted and rejected calls, Resolve
      returns the revocation, else the published payload that verified and
      hashes to the claimed address, else unattested; and no wire envelope
      changes the answer. */
  lemma ResolveRefines(pl: Plane, ops: seq<Op>, hash: string, wire: Option<Content>)
    ensures ResolveIn(pl, FilesAfter(pl, ops), hash, wire) == Meaning(AbstractAfter(pl, ops), hash)
  {
    hide IsHash, ReadSpec, ReadTomb, FilesAfter, AbstractAfter;
    AfterRepresents(pl, ops);
  }

  /** Once revoked, always revoked. */
  lemma {:induction false} RevokedForever(pl: Plane, ops: seq<Op>, more: seq<Op>, hash: string, wire: Option<Content>)
    requires ResolveIn(pl, FilesAfter(pl, ops), hash, wire).RevokedBy?
    ensures ResolveIn(pl, FilesAfter(pl, ops + more), hash, wire).RevokedBy?
    decreases |more|
  {
    hide ResolveIn, FilesAfter, AbstractStep;
    ResolveRefines(pl, ops, hash, wire);
    ResolveRefines(pl, ops + more, hash, wire);
    if more == [] {
      assert ops + more == ops;
    } else {
      var init, last := more[..|more| - 1], more[|more| - 1];
      RevokedForever(pl, ops, init, hash, wire);
      ResolveRefines(pl, ops + init, hash, wire);
      assert (ops + more)[..|ops + more| - 1] == ops + init && (ops + more)[|ops + more| - 1] == last;
      StepKeepsRevoked(pl, AbstractAfter(pl, ops + init), last, hash);
    }
  }

  lemma StepKeepsRevoked(pl: Plane, a: Abstract, op: Op, hash: string)
    requires hash in a.revoked
    ensures hash in AbstractStep(pl, a, op).revoked
  {
    hide ReadSpec, ReadTomb;
  }

  /** The hash an accepted call is about. */
  function Target(pl: Plane, op: Op): Option<string> {
    match op
    case Publish(env) =>
      var r := ReadSpec(pl, Some(env));
      if r.Some? then Some(r.value.address) else None
    case Revoke(tomb) =>
      var r := ReadTomb(pl, Some(tomb));
      if r.Some? && IsHash(r.value.revoke) then Some(r.value.revoke) else None
  }

  /** Calls about one hash never affect another, whatever files are there. */
  lemma OthersUntouched(pl: Plane, f: Files, op: Op, hash: string, wire: Option<Content>)
    requires Target(pl, op) != Some(hash)
    ensures ResolveIn(pl, FilesStep(pl, f, op), hash, wire) == ResolveIn(pl, f, hash, wire)
  {
    hide IsHash, ReadSpec, ReadTomb;
  }

  /** Whatever litter the directory holds, only a verified envelope that hashes
      to the claimed address resolves, never a revoked one, and a wire envelope
      only for a pinned hash. */
  lemma OnlyAddressed(pl: Plane, f: Files, hash: string, wire: Option<Content>)
    requires ResolveIn(pl, f, hash, wire).Resolved?
    ensures IsHash(hash) && RefOf(pl, f, hash).None?
    ensures var a := ResolveIn(pl, f, hash, wire);
      || (hash in f.specs && ReadSpec(pl, f.specs[hash]) == Some(Attested(hash, a.payload, a.keyId)))
      || (hash !in f.specs && hash in f.pins && wire.Some?
           && ReadSpec(pl, wire.value) == Some(Attested(hash, a.payload, a.keyId)))
  {
    hide IsHash, ReadSpec, ReadTomb;
  }

  // ---------------------------------------------------- what resolves, in plain terms

  /** A hash is sixty-four of the sixteen lower-case hexadecimal digits. */
  lemma HashesExactly(s: string)
    ensures IsHash(s) <==> |s| == 64 && forall c :: c in s ==> c in "0123456789abcdef"
  {
    var digits := "0123456789abcdef";
    assert forall c :: c in digits <==> '0' <= c <= '9' || 'a' <= c <= 'f' by { HexDigits(); }
    assert forall k :: 0 <= k < |s| ==> s[k] in s;
  }

  lemma HexDigits()
    ensures forall c :: c in "0123456789abcdef" <==> '0' <= c <= '9' || 'a' <= c <= 'f'
  {
    var digits := "0123456789abcdef";
    forall c: char | '0' <= c <= '9' || 'a' <= c <= 'f'
      ensures c in digits
    {
      var k := if c <= '9' then c as int - '0' as int else c as int - 'a' as int + 10;
      assert digits[k] == c;
    }
  }

  /** The file decodes to an envelope of the spec type that verifies, parses to
      this payload and hashes to this address. */
  ghost predicate Vouches(pl: Plane, c: Content, hash: string, p: SpecPayload, keyId: string) {
    c.Some? && exists v ::
      && Check(pl.trust, c.value, "application/vnd.intent-plane.spec+json") == Some(v)
      && pl.parseSpec(v.payload) == Some(p) && pl.h(v.payload) == hash && v.keyId == keyId
  }

  /** The tombstone file decodes to an envelope of the revocation type that
      verifies and revokes this very hash. */
  ghost predicate Buries(pl: Plane, c: Content, hash: string, ref: string) {
    c.Some? && exists v ::
      && Check(pl.trust, c.value, "application/vnd.intent-plane.revocation+json") == Some(v)
      && pl.parseRevocation(v.payload) == Some(Revocation(hash, ref))
  }

  ghost predicate Buried(pl: Plane, f: Files, hash: string, ref: string) {
    IsHash(hash) && hash in f.tombs && Buries(pl, f.tombs[hash], hash, ref)
  }

  lemma VouchesIs(pl: Plane, c: Content, hash: string, source: string)
    ensures forall p, keyId :: Vouches(pl, c, hash, p, keyId) <==>
      FromEnvelope(pl, c, hash, source) == Resolved(p, source, keyId)
    ensures var a := FromEnvelope(pl, c, hash, source); a.Unattested? || (a.Resolved? && a.source == source)
  {
    hide Check;
  }

  lemma BuriedIs(pl: Plane, f: Files, hash: string)
    ensures forall ref :: Buried(pl, f, hash, ref) <==> RefOf(pl, f, hash) == Some(ref)
  {
    hide Check, IsHash;
  }

  /** A revocation is answered exactly for a well-formed hash with a verified
      tombstone of its own. */
  lemma RevokedExactly(pl: Plane, f: Files, hash: string, wire: Option<Content>)
    ensures forall ref :: ResolveIn(pl, f, hash, wire) == RevokedBy(ref) <==> Buried(pl, f, hash, ref)
  {
    hide Buried, RefOf, FromEnvelope, IsHash;
    BuriedIs(pl, f, hash);
    if RefOf(pl, f, hash).Some? {
      OnlyHashes(pl, f, hash);
    }
    if hash in f.specs {
      VouchesIs(pl, f.specs[hash], hash, "store");
    }
    if wire.Some? {
      VouchesIs(pl, wire.value, hash, "wire");
    }
  }

  lemma OnlyHashes(pl: Plane, f: Files, hash: string)
    requires RefOf(pl, f, hash).Some?
    ensures IsHash(hash)
  {
    hide ReadTomb;
  }

  /** A spec resolves exactly when its hash is not revoked and the stored file
      vouches for it or, where no file is stored and the hash is pinned, the
      envelope on the wire does; the answer says which. */
  lemma ResolvedExactly(pl: Plane, f: Files, hash: string, wire: Option<Content>)
    ensures forall p, source, keyId :: ResolveIn(pl, f, hash, wire) == Resolved(p, source, keyId) <==>
      && IsHash(hash) && (forall ref :: !Buried(pl, f, hash, ref))
      && ( || (source == "store" && hash in f.specs && Vouches(pl, f.specs[hash], hash, p, keyId))
           || (source == "wire" && hash !in f.specs && hash in f.pins && wire.Some?
               && Vouches(pl, wire.value, hash, p, keyId)))
  {
    hide Buried, RefOf, Vouches, FromEnvelope, IsHash;
    BuriedIs(pl, f, hash);
    if hash in f.specs {
      VouchesIs(pl, f.specs[hash], hash, "store");
    }
    if wire.Some? {
      VouchesIs(pl, wire.value, hash, "wire");
    }
    assert RefOf(pl, f, hash).Some? ==> Buried(pl, f, hash, RefOf(pl, f, hash).value);
  }

  /** Publishing stores and pins a verified spec under the hash of its payload,
      and touches nothing else. */
  lemma PublishedExactly(pl: Plane, f: Files, env: Envelope)
    ensures forall p, keyId, hash :: Vouches(pl, Some(env), hash, p, keyId) ==>
      AfterPublish(pl, f, env) == Files(f.specs[hash := Some(env)], f.pins + {hash}, f.tombs)
    ensures (forall p, keyId, hash :: !Vouches(pl, Some(env), hash, p, keyId)) ==> AfterPublish(pl, f, env) == f
  {
    hide Check;
    var r := ReadSpec(pl, Some(env));
    if r.Some? {
      assert Vouches(pl, Some(env), r.value.address, r.value.payload, r.value.keyId);
    }
  }

  /** Revoking stores a verified tombstone under the hash it names, if that is
      one, and touches nothing else. */
  lemma BuriedExactly(pl: Plane, f: Files, tomb: Envelope)
    ensures forall hash, ref :: Buries(pl, Some(tomb), hash, ref) && IsHash(hash) ==>
      AfterRevoke(pl, f, tomb) == Files(f.specs, f.pins, f.tombs[hash := Some(tomb)])
    ensures (forall hash, ref :: !(Buries(pl, Some(tomb), hash, ref) && IsHash(hash))) ==> AfterRevoke(pl, f, tomb) == f
  {
    hide Check, IsHash;
    var r := ReadTomb(pl, Some(tomb));
    if r.Some? {
      assert Buries(pl, Some(tomb), r.value.revoke, r.value.ref) by {
        assert r.value == Revocation(r.value.revoke, r.value.ref);
      }
    }
  }

  /** Two payloads under one address are one payload, or a collision: what the
      wire resolves is what the store would have resolved. */
  lemma SameAddressSamePayload(pl: Plane, c: Content, d: Content)
    requires ReadSpec(pl, c).Some? && ReadSpec(pl, d).Some?
    requires ReadSpec(pl, c).value.address == ReadSpec(pl, d).value.address
    ensures
      var p, q := Check(pl.trust, c.value, SPEC_TYPE).value.payload, Check(pl.trust, d.value, SPEC_TYPE).value.payload;
      Collision(pl.h, p, q) || ReadSpec(pl, c).value.payload == ReadSpec(pl, d).value.payload
  {
    hide Check;
  }

  // ---------------------------------------------------- from a request to an intent

  datatype Declaration = Declaration(
    seed: string, key: string, ruleHash: string, specHash: string, scope: string, wire: Option<Content>)

  function CriteriaOf(cs: seq<Criterion>): (out: seq<Intents.Criterion>)
    ensures |out| == |cs|
  {
    seq(|cs|, k requires 0 <= k < |cs| => Intents.Criterion(cs[k].name, cs[k].threshold, cs[k].volatility))
  }

  /** The intent the gate receives: spec fields come only from what resolved. */
  ghost predicate Carries(d: Declaration, a: Answer, i: Intents.Intent) {
    && i.seed == d.seed && i.key == d.key && i.ruleHash == d.ruleHash && i.specHash == d.specHash
    && i.spec.scope == d.scope
    && match a
       case Resolved(p, source, keyId) =>
         && i.resolution == Intents.Resolution(true, source, keyId, "")
         && i.spec.actionClass == p.actionClass && i.spec.posture == p.posture
         && |i.spec.criteria| == |p.criteria| && i.spec.humanJudgment == p.humanJudgment
         && forall k :: 0 <= k < |p.criteria| ==>
              && i.spec.criteria[k].name == p.criteria[k].name
              && i.spec.criteria[k].threshold == p.criteria[k].threshold
              && i.spec.criteria[k].volatility == p.criteria[k].volatility
       case RevokedBy(ref) =>
         i.resolution == Intents.Resolution(false, "", "", ref) && i.spec == Intents.Spec("", [], d.scope, "", [])
       case Unattested =>
         i.resolution == Intents.Resolution(false, "", "", "") && i.spec == Intents.Spec("", [], d.scope, "", [])
  }

  /** `handleIntents`, between decoding the request and Authorize. */
  method BuildIntent(store: Store, d: Declaration) returns (i: Intents.Intent)
    ensures Carries(d, ResolveIn(store.pl, store.View(), d.specHash, d.wire), i)
    ensures Intents.WellResolved(i)
    ensures i.resolution.attested <==> ResolveIn(store.pl, store.View(), d.specHash, d.wire).Resolved?
  {
    hide ResolveIn;
    i := Intents.Intent(d.seed, Intents.Spec("", [], d.scope, "", []), d.key, d.ruleHash, d.specHash,
                        Intents.Resolution(false, "", "", ""));
    var a := store.Resolve(d.specHash, d.wire);
    match a {
      case Resolved(p, source, keyId) =>
        HashNotEmpty(store.pl, store.View(), d.specHash, d.wire);
        var criteria: seq<Intents.Criterion> := [];
        for k := 0 to |p.criteria|
          invariant criteria == CriteriaOf(p.criteria)[..k]
        {
          var c := p.criteria[k];
          criteria := criteria + [Intents.Criterion(c.name, c.threshold, c.volatility)];
        }
        var judgments: seq<string> := [];
        for k := 0 to |p.humanJudgment|
          invariant judgments == p.humanJudgment[..k]
        {
          judgments := judgments + [p.humanJudgment[k]];
        }
        i := i.(resolution := Intents.Resolution(true, source, keyId, ""),
                spec := Intents.Spec(p.actionClass, criteria, d.scope, p.posture, judgments));
      case RevokedBy(ref) =>
        i := i.(resolution := Intents.Resolution(false, "", "", ref));
      case Unattested =>
    }
  }

  lemma HashNotEmpty(pl: Plane, f: Files, hash: string, wire: Option<Content>)
    requires ResolveIn(pl, f, hash, wire).Resolved?
    ensures hash != ""
  {
    hide ReadSpec, ReadTomb;
  }
}
