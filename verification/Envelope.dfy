// Signed envelopes (plane/envelope.go): the encoding that is signed, and the
// scan that decides whether any signature verifies.

module Envelopes {
  import opened Text

  datatype Signature = Signature(keyId: string, sig: string)

  datatype Envelope = Envelope(payloadType: string, payload: string, signatures: seq<Signature>)

  /** The trust root's keys, base64 decoding, and the signature check as an
      unknown predicate over (key, message, signature). */
  datatype Trust = Trust(
    keys: map<string, Bytes>, decode: string -> Option<Bytes>, valid: (Bytes, Bytes, Bytes) -> bool)

  const SPEC_TYPE := "application/vnd.intent-plane.spec+json"
  const REVOCATION_TYPE := "application/vnd.intent-plane.revocation+json"

  /** The DSSE v1 pre-authentication encoding. */
  function PAE(payloadType: string, payload: Bytes): Bytes {
    "DSSEv1 " + Itoa(|payloadType|) + " " + payloadType + " " + Itoa(|payload|) + " " + payload
  }

  lemma CountSplit(m: nat, x: string, n: nat, y: string)
    requires Itoa(m) + (" " + x) == Itoa(n) + (" " + y)
    ensures m == n && x == y
  {
    hide Itoa, DigitRun;
    var left, right := Itoa(m) + (" " + x), Itoa(n) + (" " + y);
    DigitRunOf(Itoa(m), " " + x);
    DigitRunOf(Itoa(n), " " + y);
    assert left[..|Itoa(m)|] == Itoa(m) && right[..|Itoa(n)|] == Itoa(n);
    ItoaInjective(m, n);
    assert left[|Itoa(m)| + 1..] == x && right[|Itoa(n)| + 1..] == y;
  }

  /** A counted field is read back, with what follows it, in one way only. */
  lemma FieldSplit(t: string, x: string, u: string, y: string)
    requires Itoa(|t|) + (" " + (t + x)) == Itoa(|u|) + (" " + (u + y))
    ensures t == u && x == y
  {
    hide Itoa;
    CountSplit(|t|, t + x, |u|, u + y);
    assert (t + x)[..|t|] == t && (u + y)[..|t|] == u && (t + x)[|t|..] == x && (u + y)[|t|..] == y;
  }

  /** A fixed tag, then each part after its length, parted by spaces. */
  lemma PAEShape(t: string, p: Bytes)
    ensures PAE(t, p) == "DSSEv1 " + (Itoa(|t|) + (" " + (t + (" " + (Itoa(|p|) + (" " + (p + "")))))))
  {
    hide Itoa;
  }

  /** The signed bytes determine both the payload type and the payload, so a
      signature made for one kind of artifact speaks for no other. */
  lemma PAEInjective(t: string, p: Bytes, u: string, q: Bytes)
    requires PAE(t, p) == PAE(u, q)
    ensures t == u && p == q
  {
    hide Itoa, PAE;
    PAEShape(t, p);
    PAEShape(u, q);
    var pt, qt := Itoa(|p|) + (" " + (p + "")), Itoa(|q|) + (" " + (q + ""));
    var l, r := Itoa(|t|) + (" " + (t + (" " + pt))), Itoa(|u|) + (" " + (u + (" " + qt)));
    assert ("DSSEv1 " + l)[7..] == l && ("DSSEv1 " + r)[7..] == r;
    FieldSplit(t, " " + pt, u, " " + qt);
    assert (" " + pt)[1..] == pt && (" " + qt)[1..] == qt;
    FieldSplit(p, "", q, "");
  }

  /** One signature verifies: a trusted key, a decodable signature, a match. */
  predicate Signs(tr: Trust, s: Signature, message: Bytes) {
    s.keyId in tr.keys && tr.decode(s.sig).Some? && tr.valid(tr.keys[s.keyId], message, tr.decode(s.sig).value)
  }

  datatype Verified = Verified(payload: Bytes, keyId: string)

  function FirstSigner(tr: Trust, ss: seq<Signature>, message: Bytes): (k: nat)
    ensures k <= |ss| && forall j :: 0 <= j < k ==> !Signs(tr, ss[j], message)
    ensures k < |ss| ==> Signs(tr, ss[k], message)
  {
    if ss == [] || Signs(tr, ss[0], message) then 0 else 1 + FirstSigner(tr, ss[1..], message)
  }

  function Check(tr: Trust, e: Envelope, want: string): Option<Verified> {
    if e.payloadType != want || tr.decode(e.payload).None? then None
    else
      var payload := tr.decode(e.payload).value;
      var k := FirstSigner(tr, e.signatures, PAE(e.payloadType, payload));
      if k < |e.signatures| then Some(Verified(payload, e.signatures[k].keyId)) else None
  }

  /** Signature `k` is by a key of the trust root, decodes, and is valid over
      the encoding of exactly this type and payload. */
  ghost predicate SignedAt(tr: Trust, e: Envelope, k: int, want: string, payload: Bytes) {
    && 0 <= k < |e.signatures|
    && var s := e.signatures[k];
    && s.keyId in tr.keys && tr.decode(s.sig).Some?
    && tr.valid(tr.keys[s.keyId], PAE(want, payload), tr.decode(s.sig).value)
  }

  /** An envelope verifies to a payload and a key exactly when its type is the
      wanted one, it decodes to that payload, and the key made the first
      signature over that very type and payload that a trusted key made. */
  lemma ChecksExactly(tr: Trust, e: Envelope, want: string)
    ensures forall v :: Check(tr, e, want) == Some(v) <==>
      && e.payloadType == want && tr.decode(e.payload) == Some(v.payload)
      && exists k :: SignedAt(tr, e, k, want, v.payload) && e.signatures[k].keyId == v.keyId
                     && forall j :: 0 <= j < k ==> !SignedAt(tr, e, j, want, v.payload)
  {
    hide PAE;
    if e.payloadType == want && tr.decode(e.payload).Some? {
      var payload := tr.decode(e.payload).value;
      var message := PAE(want, payload);
      var first := FirstSigner(tr, e.signatures, message);
      assert forall k :: 0 <= k < |e.signatures| ==>
        (Signs(tr, e.signatures[k], message) <==> SignedAt(tr, e, k, want, payload));
      assert first < |e.signatures| ==> SignedAt(tr, e, first, want, payload);
    }
  }

  /** `Envelope.Verify`: unknown keys and undecodable signatures are skipped. */
  method Verify(tr: Trust, e: Envelope, want: string) returns (r: Option<Verified>)
    ensures r == Check(tr, e, want)
  {
    hide PAE;
    if e.payloadType != want {
      return None;
    }
    var decoded := tr.decode(e.payload);
    if decoded.None? {
      return None;
    }
    var pae := PAE(e.payloadType, decoded.value);
    for k := 0 to |e.signatures|
      invariant FirstSigner(tr, e.signatures, pae) >= k
    {
      var s := e.signatures[k];
      if s.keyId !in tr.keys {
        continue;
      }
      var sig := tr.decode(s.sig);
      if sig.None? {
        continue;
      }
      if tr.valid(tr.keys[s.keyId], pae, sig.value) {
        return Some(Verified(decoded.value, s.keyId));
      }
    }
    return None;
  }

  /** No message is both a spec and a revocation. */
  lemma TypesSeparate(p: Bytes, q: Bytes)
    ensures PAE(SPEC_TYPE, p) != PAE(REVOCATION_TYPE, q)
  {
    hide PAE;
    if PAE(SPEC_TYPE, p) == PAE(REVOCATION_TYPE, q) {
      PAEInjective(SPEC_TYPE, p, REVOCATION_TYPE, q);
    }
    assert || SPEC_TYPE[28] != REVOCATION_TYPE[28] || SPEC_TYPE[29] != REVOCATION_TYPE[29]
           || |SPEC_TYPE| != |REVOCATION_TYPE|;
  }
}
