// The per-intent event log and its canonical encoding (core/internal/audit).

module Audit {
  import opened Text
  import opened Hashing

  datatype Event = Event(clock: nat, typ: string, detail: string)

  /** One length-prefixed field: <len>:<bytes>\n. */
  function Field(s: string): Bytes { Itoa(|s|) + ":" + s + "\n" }

  function EncodeEvent(e: Event): Bytes { Field(Itoa(e.clock)) + Field(e.typ) + Field(e.detail) }

  /** The bytes the trajectory hash is computed over. */
  function Encode(es: seq<Event>): Bytes {
    if es == [] then "" else Encode(es[..|es| - 1]) + EncodeEvent(es[|es| - 1])
  }

  function HashOf(h: Digest, es: seq<Event>): Bytes { h(Encode(es)) }

  // ---------------------------------------------------- unique decoding

  datatype Piece = Stuck | Piece(value: string, rest: string)

  function ParseField(s: string): (p: Piece)
    ensures p.Piece? ==> |p.rest| < |s|
  {
    var k := DigitRun(s);
    if k == 0 || k == |s| || s[k] != ':' then Stuck
    else
      var n := ParseNat(s[..k]);
      if |s| < k + n + 2 || s[k + 1 + n] != '\n' then Stuck
      else Piece(s[k + 1..k + 1 + n], s[k + n + 2..])
  }

  function ParseEvents(s: string): Option<seq<Event>>
    decreases |s|
  {
    if s == "" then Some([])
    else match ParseField(s)
      case Stuck => None
      case Piece(clock, s1) =>
        if clock == "" || !AllDigits(clock) then None
        else match ParseField(s1)
          case Stuck => None
          case Piece(typ, s2) =>
            match ParseField(s2)
            case Stuck => None
            case Piece(detail, s3) =>
              match ParseEvents(s3)
              case None => None
              case Some(es) => Some([Event(ParseNat(clock), typ, detail)] + es)
  }

  /** A field is read back whatever digits, colons or newlines it contains. */
  lemma FieldParses(s: string, rest: string)
    ensures ParseField(Field(s) + rest) == Piece(s, rest)
  {
    var len := Itoa(|s|);
    var t := Field(s) + rest;
    assert t == len + (":" + s + "\n" + rest);
    DigitRunOf(len, ":" + s + "\n" + rest);
    ParseItoa(|s|);
    var k := |len|;
    assert t[..k] == len && t[k] == ':';
    assert t[k + 1..k + 1 + |s|] == s && t[k + 1 + |s|] == '\n';
    assert t[k + |s| + 2..] == rest;
  }

  lemma {:induction false} EncodeFirst(es: seq<Event>)
    requires es != []
    ensures Encode(es) == EncodeEvent(es[0]) + Encode(es[1..])
  {
    hide EncodeEvent, Encode;
    var n := |es| - 1;
    var first, last := EncodeEvent(es[0]), EncodeEvent(es[n]);
    assert es == es[..n] + [es[n]];
    EncodeSnoc(es[..n], es[n]);
    if n > 0 {
      var middle := es[1..n];
      EncodeFirst(es[..n]);
      assert es[..n][1..] == middle && es[..n][0] == es[0];
      EncodeSnoc(middle, es[n]);
      assert es[1..] == middle + [es[n]];
      Regroup(first, Encode(middle), last);
    } else {
      assert es[..0] == [] && es[1..] == [];
      EncodeNone();
    }
  }

  lemma Regroup(a: string, b: string, c: string)
    ensures (a + b) + c == a + (b + c)
  {}

  lemma EncodeNone()
    ensures Encode([]) == ""
  {}

  lemma EncodeSnoc(es: seq<Event>, e: Event)
    ensures Encode(es + [e]) == Encode(es) + EncodeEvent(e)
  {
    assert (es + [e])[..|es|] == es;
  }

  lemma EventParses(e: Event, rest: string, es: seq<Event>)
    requires ParseEvents(rest) == Some(es)
    ensures ParseEvents(EncodeEvent(e) + rest) == Some([e] + es)
  {
    hide ParseField, Field, Itoa;
    var clock, typ, detail := Field(Itoa(e.clock)), Field(e.typ), Field(e.detail);
    var t := EncodeEvent(e) + rest;
    assert t == clock + (typ + (detail + rest));
    FieldParses(Itoa(e.clock), typ + (detail + rest));
    FieldParses(e.typ, detail + rest);
    FieldParses(e.detail, rest);
    ParseItoa(e.clock);
    FieldNonEmpty(Itoa(e.clock));
  }

  lemma FieldNonEmpty(s: string)
    ensures Field(s) != ""
  {}

  /** Decoding inverts encoding: the bytes determine the whole log. */
  lemma {:induction false} DecodeEncode(es: seq<Event>)
    ensures ParseEvents(Encode(es)) == Some(es)
    decreases |es|
  {
    if es != [] {
      EncodeFirst(es);
      DecodeEncode(es[1..]);
      EventParses(es[0], Encode(es[1..]), es[1..]);
      assert es == [es[0]] + es[1..];
    }
  }

  /** Different logs have different bytes, so equal hashes mean equal logs or a
      collision of the digest. */
  lemma HashCommits(h: Digest, a: seq<Event>, b: seq<Event>)
    requires HashOf(h, a) == HashOf(h, b)
    ensures a == b || Collision(h, Encode(a), Encode(b))
  {
    DecodeEncode(a);
    DecodeEncode(b);
  }

  lemma EncodeInjective(a: seq<Event>, b: seq<Event>)
    requires Encode(a) == Encode(b)
    ensures a == b
  {
    DecodeEncode(a);
    DecodeEncode(b);
  }

  // ---------------------------------------------------- the log object

  predicate Clocked(es: seq<Event>) { forall k :: 0 <= k < |es| ==> es[k].clock == k }

  class EventLog {
    var events: seq<Event>

    constructor ()
      ensures events == []
    {
      events := [];
    }

    method Append(typ: string, detail: string) returns (e: Event)
      modifies this
      ensures e == Event(|old(events)|, typ, detail)
      ensures events == old(events) + [e]
      ensures old(Clocked(events)) ==> Clocked(events)
    {
      e := Event(|events|, typ, detail);
      events := events + [e];
    }

    method TrajectoryHash(h: Digest) returns (s: Bytes)
      ensures s == HashOf(h, events)
    {
      hide Field, Itoa;
      var written: Bytes := "";
      for k := 0 to |events|
        invariant written == Encode(events[..k])
      {
        hide Encode;
        var e := events[k];
        EncodeSnoc(events[..k], e);
        assert events[..k + 1] == events[..k] + [e];
        written := written + (Field(Itoa(e.clock)) + Field(e.typ) + Field(e.detail));
      }
      assert events[..|events|] == events;
      s := h(written);
    }
  }
}
