// The regulatory-reporting adapter (declarant/pydeclarant/reporting_adapter.py):
// the identity a report is keyed by, the gate in front of each submission, and
// the reconciliation of the feed with the log of executed submissions.

module Reporting {
  import opened Text
  import opened Hashing
  import PyJson
  import D = Declarant

  /** The regulatory identity of one report message. */
  datatype Identity = Identity(
    reportingEntity: string, uti: string, actionType: string, ruleSet: string, onBehalfOf: string,
    asOf: string, eventRef: string, priorRef: string)

  /** The fields, in the order sorted JSON keys put them. */
  datatype Field =
    | ActionTypeField | AsOfField | EventField | BehalfField | PriorField | EntityField | RuleField | UtiField

  const SORTED := [ActionTypeField, AsOfField, EventField, BehalfField, PriorField, EntityField, RuleField, UtiField]
  const BASE := [EntityField, UtiField, ActionTypeField, RuleField, BehalfField]
  const DISCRIMINATORS := [AsOfField, EventField, PriorField]

  function NameOf(f: Field): string {
    match f
    case ActionTypeField => "action_type"
    case AsOfField => "as_of"
    case EventField => "event_ref"
    case BehalfField => "on_behalf_of"
    case PriorField => "prior_ref"
    case EntityField => "reporting_entity"
    case RuleField => "rule_set"
    case UtiField => "uti"
  }

  function ValueOf(x: Identity, f: Field): string {
    match f
    case ActionTypeField => x.actionType
    case AsOfField => x.asOf
    case EventField => x.eventRef
    case BehalfField => x.onBehalfOf
    case PriorField => x.priorRef
    case EntityField => x.reportingEntity
    case RuleField => x.ruleSet
    case UtiField => x.uti
  }

  /** The discriminators an action type keys on; a closed table. */
  function ActionType(a: string): Option<seq<Field>> {
    if a == "NEWT" then Some([])
    else if a == "MODI" || a == "REVI" || a == "TERM" then Some([EventField])
    else if a == "CORR" then Some([EventField, PriorField])
    else if a == "EROR" then Some([PriorField])
    else if a == "VALU" || a == "COLU" || a == "POSC" || a == "MARU" then Some([AsOfField])
    else None
  }

  function Keyed(a: string): seq<Field> { BASE + (if ActionType(a).Some? then ActionType(a).value else []) }

  // ---------------------------------------------------- dates

  function DaysIn(year: nat, month: nat): nat {
    if month in {4, 6, 9, 11} then 30
    else if month == 2 then (if year % 4 == 0 && (year % 100 != 0 || year % 400 == 0) then 29 else 28)
    else 31
  }

  /** Exactly YYYY-MM-DD, and a real calendar date. */
  predicate IsIsoDate(s: string) {
    && |s| == 10 && s[4] == '-' && s[7] == '-'
    && AllDigits(s[..4]) && AllDigits(s[5..7]) && AllDigits(s[8..])
    && var year, month, day := ParseNat(s[..4]), ParseNat(s[5..7]), ParseNat(s[8..]);
    && year >= 1 && 1 <= month <= 12 && 1 <= day <= DaysIn(year, month)
  }

  /** A day of the Gregorian calendar. */
  predicate RealDay(year: int, month: int, day: int) {
    && 1 <= year && 1 <= day
    && ( || (month in {1, 3, 5, 7, 8, 10, 12} && day <= 31)
         || (month in {4, 6, 9, 11} && day <= 30)
         || (month == 2 && day <= 28)
         || (month == 2 && day == 29 && (year % 400 == 0 || (year % 4 == 0 && year % 100 != 0))))
  }

  function Two(a: char, b: char): int { 10 * (a as int - '0' as int) + (b as int - '0' as int) }

  lemma TwoDigits(s: string)
    requires |s| == 2 && AllDigits(s)
    ensures ParseNat(s) == Two(s[0], s[1])
  {
    assert s[..1] == [s[0]];
  }

  lemma FourDigits(s: string)
    requires |s| == 4 && AllDigits(s)
    ensures ParseNat(s) == 100 * Two(s[0], s[1]) + Two(s[2], s[3])
  {
    assert ParseNat(s) == 10 * ParseNat(s[..3]) + DigitValue(s[3]);
    assert s[..3][..2] == s[..2];
    TwoDigits(s[..2]);
  }

  /** Ten characters are a date exactly when they are four digits, two and two
      with hyphens between them, and that day exists. */
  lemma DatesExactly(s: string)
    ensures IsIsoDate(s) <==>
      && |s| == 10 && s[4] == '-' && s[7] == '-'
      && (forall k :: 0 <= k < 10 && k != 4 && k != 7 ==> '0' <= s[k] <= '9')
      && RealDay(100 * Two(s[0], s[1]) + Two(s[2], s[3]), Two(s[5], s[6]), Two(s[8], s[9]))
  {
    hide DaysIn, RealDay, Two, ParseNat, AllDigits;
    if |s| == 10 && s[4] == '-' && s[7] == '-' {
      DateDigits(s);
      if AllDigits(s[..4]) && AllDigits(s[5..7]) && AllDigits(s[8..]) {
        DateValues(s);
        DayExists(ParseNat(s[..4]), ParseNat(s[5..7]), ParseNat(s[8..]));
      }
    }
  }

  lemma DateDigits(s: string)
    requires |s| == 10
    ensures AllDigits(s[..4]) && AllDigits(s[5..7]) && AllDigits(s[8..]) <==>
            forall k :: 0 <= k < 10 && k != 4 && k != 7 ==> '0' <= s[k] <= '9'
  {
    var y, m, d := s[..4], s[5..7], s[8..];
    assert y[0] == s[0] && y[1] == s[1] && y[2] == s[2] && y[3] == s[3];
    assert m[0] == s[5] && m[1] == s[6] && d[0] == s[8] && d[1] == s[9];
  }

  lemma DateValues(s: string)
    requires |s| == 10 && AllDigits(s[..4]) && AllDigits(s[5..7]) && AllDigits(s[8..])
    ensures ParseNat(s[..4]) == 100 * Two(s[0], s[1]) + Two(s[2], s[3])
    ensures ParseNat(s[5..7]) == Two(s[5], s[6]) && ParseNat(s[8..]) == Two(s[8], s[9])
  {
    hide Two, ParseNat, AllDigits;
    FourDigits(s[..4]);
    TwoDigits(s[5..7]);
    TwoDigits(s[8..]);
  }

  lemma DayExists(year: nat, month: nat, day: nat)
    ensures year >= 1 && 1 <= month <= 12 && 1 <= day <= DaysIn(year, month) <==> RealDay(year, month, day)
  {}

  /** Leap days: every fourth year, not every hundredth, but every fourth of
      those. */
  lemma LeapDays()
    ensures IsIsoDate("2024-02-29") && !IsIsoDate("2023-02-29")
    ensures !IsIsoDate("2100-02-29") && IsIsoDate("2000-02-29")
  {
    hide IsIsoDate;
    DatesExactly("2024-02-29");
    DatesExactly("2023-02-29");
    DatesExactly("2100-02-29");
    DatesExactly("2000-02-29");
  }

  lemma MonthEnds()
    ensures IsIsoDate("2024-12-31") && !IsIsoDate("2024-04-31")
    ensures !IsIsoDate("0000-01-01") && !IsIsoDate("2024-1-001")
  {
    hide IsIsoDate;
    DatesExactly("2024-12-31");
    DatesExactly("2024-04-31");
    DatesExactly("0000-01-01");
    DatesExactly("2024-1-001");
  }

  // ---------------------------------------------------- the keyed bytes

  /** A field that can be keyed on; `clean` stands for "stripped and NFC". */
  ghost predicate Given(s: string, clean: string -> bool) { s != "" && clean(s) }

  /** What can be keyed honestly: the base fields, and exactly the
      discriminators of the action type. */
  ghost predicate Keyable(x: Identity, clean: string -> bool) {
    && Given(x.reportingEntity, clean) && Given(x.uti, clean) && Given(x.ruleSet, clean)
    && Given(x.actionType, clean) && clean(x.onBehalfOf)
    && ( || (x.actionType == "NEWT" && x.eventRef == "" && x.priorRef == "" && x.asOf == "")
         || (x.actionType in {"MODI", "REVI", "TERM"}
             && Given(x.eventRef, clean) && x.priorRef == "" && x.asOf == "")
         || (x.actionType == "CORR" && Given(x.eventRef, clean) && Given(x.priorRef, clean) && x.asOf == "")
         || (x.actionType == "EROR" && x.eventRef == "" && Given(x.priorRef, clean) && x.asOf == "")
         || (x.actionType in {"VALU", "COLU", "POSC", "MARU"}
             && x.eventRef == "" && x.priorRef == "" && Given(x.asOf, clean) && IsIsoDate(x.asOf)))
  }

  /** The same, as the table of action types decides it. */
  ghost predicate TableKeys(x: Identity, clean: string -> bool) {
    && ActionType(x.actionType).Some?
    && (forall f :: f in Keyed(x.actionType) ==> clean(ValueOf(x, f)) && (f == BehalfField || ValueOf(x, f) != ""))
    && (forall f :: f in DISCRIMINATORS && f !in Keyed(x.actionType) ==> ValueOf(x, f) == "")
    && (AsOfField in Keyed(x.actionType) ==> IsIsoDate(x.asOf))
  }

  ghost predicate KeysOn(a: string, asOf: bool, event: bool, prior: bool) {
    && ActionType(a).Some?
    && (AsOfField in Keyed(a) <==> asOf) && (EventField in Keyed(a) <==> event) && (PriorField in Keyed(a) <==> prior)
  }

  /** The table, row by row. */
  lemma TableRows(a: string)
    ensures a == "NEWT" ==> KeysOn(a, false, false, false)
    ensures a in {"MODI", "REVI", "TERM"} ==> KeysOn(a, false, true, false)
    ensures a == "CORR" ==> KeysOn(a, false, true, true)
    ensures a == "EROR" ==> KeysOn(a, false, false, true)
    ensures a in {"VALU", "COLU", "POSC", "MARU"} ==> KeysOn(a, true, false, false)
    ensures ActionType(a).Some? <==>
            a in {"NEWT", "MODI", "REVI", "TERM", "CORR", "EROR", "VALU", "COLU", "POSC", "MARU"}
  {
    assert |BASE| == 5;
    assert forall f :: f in BASE ==> f !in DISCRIMINATORS;
  }

  lemma KeysEach(x: Identity, clean: string -> bool)
    ensures TableKeys(x, clean) <==>
      && ActionType(x.actionType).Some?
      && Given(x.reportingEntity, clean) && Given(x.uti, clean) && Given(x.ruleSet, clean)
      && Given(x.actionType, clean) && clean(x.onBehalfOf)
      && (if AsOfField in Keyed(x.actionType) then Given(x.asOf, clean) && IsIsoDate(x.asOf) else x.asOf == "")
      && (if EventField in Keyed(x.actionType) then Given(x.eventRef, clean) else x.eventRef == "")
      && (if PriorField in Keyed(x.actionType) then Given(x.priorRef, clean) else x.priorRef == "")
  {
    hide Keyed, ActionType, IsIsoDate;
    var a := x.actionType;
    forall f: Field
      ensures f !in DISCRIMINATORS ==> f in Keyed(a)
    {
      BaseKeyed(a, f);
    }
    assert ValueOf(x, EntityField) == x.reportingEntity && ValueOf(x, UtiField) == x.uti;
    assert ValueOf(x, RuleField) == x.ruleSet && ValueOf(x, ActionTypeField) == x.actionType;
    assert ValueOf(x, BehalfField) == x.onBehalfOf && ValueOf(x, AsOfField) == x.asOf;
    assert ValueOf(x, EventField) == x.eventRef && ValueOf(x, PriorField) == x.priorRef;
  }

  lemma KeyableIs(x: Identity, clean: string -> bool)
    ensures Keyable(x, clean) <==> TableKeys(x, clean)
  {
    hide TableKeys, Keyed, ActionType, IsIsoDate;
    TableRows(x.actionType);
    KeysEach(x, clean);
  }

  function Entry(x: Identity, f: Field): string { PyJson.Dumps(NameOf(f)) + ":" + PyJson.Dumps(ValueOf(x, f)) }

  /** `,"name":"value"` for each kept field, in sorted order. */
  function Entries(x: Identity, fs: seq<Field>, keep: seq<Field>): (s: string)
    ensures s != ""
  {
    if fs == [] then "}"
    else (if fs[0] in keep then "," + Entry(x, fs[0]) else "") + Entries(x, fs[1..], keep)
  }

  /** Sorted-key compact JSON over the fields the action type keys on. */
  function Canonical(x: Identity): Bytes { "{" + Entries(x, SORTED, Keyed(x.actionType))[1..] }

  lemma {:induction false} SameEntries(a: Identity, b: Identity, fs: seq<Field>, keep: seq<Field>)
    requires Entries(a, fs, keep) == Entries(b, fs, keep)
    ensures forall f :: f in fs && f in keep ==> ValueOf(a, f) == ValueOf(b, f)
    decreases |fs|
  {
    hide PyJson.Dumps, NameOf, ValueOf;
    if fs != [] {
      var f, ra, rb := fs[0], Entries(a, fs[1..], keep), Entries(b, fs[1..], keep);
      if f in keep {
        SameEntry(a, b, f, ra, rb);
      } else {
        assert Entries(a, fs, keep) == "" + ra == ra && Entries(b, fs, keep) == "" + rb == rb;
      }
      SameEntries(a, b, fs[1..], keep);
    }
  }

  lemma SameEntry(a: Identity, b: Identity, f: Field, ra: string, rb: string)
    requires "," + Entry(a, f) + ra == "," + Entry(b, f) + rb
    ensures ValueOf(a, f) == ValueOf(b, f) && ra == rb
  {
    hide PyJson.Dumps, NameOf, ValueOf;
    var head := "," + PyJson.Dumps(NameOf(f)) + ":";
    var x, y := PyJson.Dumps(ValueOf(a, f)) + ra, PyJson.Dumps(ValueOf(b, f)) + rb;
    assert "," + Entry(a, f) + ra == head + x && "," + Entry(b, f) + rb == head + y;
    assert (head + x)[|head|..] == x && (head + y)[|head|..] == y;
    PyJson.DumpsSplit(ValueOf(a, f), ra, ValueOf(b, f), rb);
  }

  /** The action type comes first, so it is read back before anything that
      depends on it. */
  lemma SameAction(a: Identity, b: Identity)
    requires Canonical(a) == Canonical(b)
    ensures a.actionType == b.actionType
  {
    hide PyJson.Dumps, NameOf, Keyed;
    ActionFirst(a);
    ActionFirst(b);
    var ra, rb := Entries(a, SORTED[1..], Keyed(a.actionType)), Entries(b, SORTED[1..], Keyed(b.actionType));
    assert "," + Canonical(a)[1..] == "," + Entry(a, ActionTypeField) + ra;
    assert "," + Canonical(b)[1..] == "," + Entry(b, ActionTypeField) + rb;
    SameEntry(a, b, ActionTypeField, ra, rb);
  }

  lemma ActionFirst(x: Identity)
    ensures Entries(x, SORTED, Keyed(x.actionType)) ==
            "," + Entry(x, ActionTypeField) + Entries(x, SORTED[1..], Keyed(x.actionType))
    ensures Canonical(x)[1..] == Entry(x, ActionTypeField) + Entries(x, SORTED[1..], Keyed(x.actionType))
  {
    hide Entry, ActionType;
    assert ActionTypeField in Keyed(x.actionType) by { assert BASE[2] == ActionTypeField; }
    hide Keyed;
    var e, rest := Entry(x, ActionTypeField), Entries(x, SORTED[1..], Keyed(x.actionType));
    assert ("," + e + rest)[1..] == e + rest;
  }

  lemma AllSorted(f: Field)
    ensures f in SORTED
  {
    assert SORTED[0] == ActionTypeField && SORTED[1] == AsOfField && SORTED[2] == EventField && SORTED[3] == BehalfField
        && SORTED[4] == PriorField && SORTED[5] == EntityField && SORTED[6] == RuleField && SORTED[7] == UtiField;
  }

  lemma BaseKeyed(a: string, f: Field)
    ensures f !in DISCRIMINATORS ==> f in Keyed(a)
  {
    assert BASE[0] == EntityField && BASE[1] == UtiField && BASE[2] == ActionTypeField && BASE[3] == RuleField
        && BASE[4] == BehalfField;
    assert DISCRIMINATORS[0] == AsOfField && DISCRIMINATORS[1] == EventField && DISCRIMINATORS[2] == PriorField;
  }

  /** Two keyable identities have the same canonical bytes exactly when every
      field is equal: no report forks, and no two reports share a key's bytes. */
  lemma CanonicalInjective(a: Identity, b: Identity, clean: string -> bool)
    requires Keyable(a, clean) && Keyable(b, clean)
    ensures Canonical(a) == Canonical(b) <==> a == b
  {
    if Canonical(a) == Canonical(b) {
      KeyableIs(a, clean);
      KeyableIs(b, clean);
      SameAction(a, b);
      SameBodies(a, b);
      SameEntries(a, b, SORTED, Keyed(a.actionType));
      hide Entries, Canonical, Keyed, ActionType, IsIsoDate;
      forall f: Field
        ensures ValueOf(a, f) == ValueOf(b, f)
      {
        AllSorted(f);
        BaseKeyed(a.actionType, f);
      }
      assert ValueOf(a, UtiField) == ValueOf(b, UtiField) && ValueOf(a, EntityField) == ValueOf(b, EntityField);
      assert ValueOf(a, RuleField) == ValueOf(b, RuleField) && ValueOf(a, BehalfField) == ValueOf(b, BehalfField);
      assert ValueOf(a, AsOfField) == ValueOf(b, AsOfField) && ValueOf(a, EventField) == ValueOf(b, EventField);
      assert ValueOf(a, PriorField) == ValueOf(b, PriorField);
    }
  }

  lemma SameBodies(a: Identity, b: Identity)
    requires Canonical(a) == Canonical(b) && a.actionType == b.actionType
    ensures Entries(a, SORTED, Keyed(a.actionType)) == Entries(b, SORTED, Keyed(a.actionType))
  {
    hide Entries, Keyed;
    var ea, eb := Entries(a, SORTED, Keyed(a.actionType)), Entries(b, SORTED, Keyed(a.actionType));
    BodyStart(a);
    BodyStart(b);
    assert Canonical(a)[1..] == ea[1..] && Canonical(b)[1..] == eb[1..];
    assert ea == [ea[0]] + ea[1..] && eb == [eb[0]] + eb[1..];
  }

  lemma BodyStart(x: Identity)
    ensures |Entries(x, SORTED, Keyed(x.actionType))| > 0 && Entries(x, SORTED, Keyed(x.actionType))[0] == ','
  {
    hide Entries, Keyed, Entry;
    ActionFirst(x);
  }

  // ---------------------------------------------------- the bytes, literally

  /** One further member. */
  function With(name: string, value: string): string { ",\"" + name + "\":" + PyJson.Dumps(value) }

  /** One further member, unless its value is empty. */
  function Also(name: string, value: string): string { if value == "" then "" else With(name, value) }

  /** The keyed bytes as text: the members in sorted order, the discriminators
      only where they are given, the party reported for even when it is not. */
  function Written(x: Identity): string {
    "{\"action_type\":" + PyJson.Dumps(x.actionType)
    + Also("as_of", x.asOf) + Also("event_ref", x.eventRef) + With("on_behalf_of", x.onBehalfOf)
    + Also("prior_ref", x.priorRef) + With("reporting_entity", x.reportingEntity)
    + With("rule_set", x.ruleSet) + With("uti", x.uti) + "}"
  }

  /** What one field adds to the bytes. */
  function Piece(x: Identity, f: Field, keep: seq<Field>): string { if f in keep then "," + Entry(x, f) else "" }

  lemma {:induction false} OnePiece(x: Identity, k: nat, keep: seq<Field>)
    requires k < 8
    ensures Entries(x, SORTED[k..], keep) == Piece(x, SORTED[k], keep) + Entries(x, SORTED[k + 1..], keep)
  {
    hide Entry;
    assert SORTED[k..][1..] == SORTED[k + 1..];
  }

  lemma AllPieces(x: Identity, keep: seq<Field>)
    ensures Entries(x, SORTED, keep) ==
      Piece(x, ActionTypeField, keep) + Piece(x, AsOfField, keep) + Piece(x, EventField, keep)
      + Piece(x, BehalfField, keep) + Piece(x, PriorField, keep) + Piece(x, EntityField, keep)
      + Piece(x, RuleField, keep) + Piece(x, UtiField, keep) + "}"
  {
    hide Entries, Piece;
    OnePiece(x, 0, keep);
    OnePiece(x, 1, keep);
    OnePiece(x, 2, keep);
    OnePiece(x, 3, keep);
    OnePiece(x, 4, keep);
    OnePiece(x, 5, keep);
    OnePiece(x, 6, keep);
    OnePiece(x, 7, keep);
    assert SORTED[0..] == SORTED;
    NoPieces(x, keep);
  }

  lemma NoPieces(x: Identity, keep: seq<Field>)
    ensures Entries(x, SORTED[8..], keep) == "}"
  {}

  predicate Lower(s: string) { forall k :: 0 <= k < |s| ==> 'a' <= s[k] <= 'z' || s[k] == '_' }

  lemma NamesPlain(f: Field)
    ensures Lower(NameOf(f))
  {
    assert Lower("action_type") && Lower("as_of") && Lower("event_ref") && Lower("on_behalf_of");
    assert Lower("prior_ref") && Lower("reporting_entity") && Lower("rule_set") && Lower("uti");
    hide Lower;
  }

  lemma EntryText(x: Identity, f: Field)
    ensures "," + Entry(x, f) == With(NameOf(f), ValueOf(x, f))
  {
    hide PyJson.Dumps, ValueOf, NameOf;
    NamesPlain(f);
    PyJson.PlainDumps(NameOf(f));
    assert Entry(x, f) == "\"" + NameOf(f) + "\"" + ":" + PyJson.Dumps(ValueOf(x, f));
  }

  /** A keyable identity is written as this text. */
  lemma CanonicalText(x: Identity, clean: string -> bool)
    requires Keyable(x, clean)
    ensures Canonical(x) == Written(x)
  {
    hide Entries, Keyed, ActionType, IsIsoDate, TableKeys, Written;
    KeyableIs(x, clean);
    KeysEach(x, clean);
    forall f: Field
      ensures f !in DISCRIMINATORS ==> f in Keyed(x.actionType)
    {
      BaseKeyed(x.actionType, f);
    }
    PiecesText(x, Keyed(x.actionType));
  }

  lemma BasePiece(x: Identity, f: Field, keep: seq<Field>)
    requires f in keep
    ensures Piece(x, f, keep) == With(NameOf(f), ValueOf(x, f))
  {
    hide Entry, With, NameOf, ValueOf;
    EntryText(x, f);
  }

  lemma ExtraPiece(x: Identity, f: Field, keep: seq<Field>)
    requires f in keep <==> ValueOf(x, f) != ""
    ensures Piece(x, f, keep) == Also(NameOf(f), ValueOf(x, f))
  {
    hide Entry, With, NameOf, ValueOf;
    EntryText(x, f);
  }

  lemma PiecesText(x: Identity, keep: seq<Field>)
    requires forall f :: f !in DISCRIMINATORS ==> f in keep
    requires AsOfField in keep <==> x.asOf != ""
    requires EventField in keep <==> x.eventRef != ""
    requires PriorField in keep <==> x.priorRef != ""
    ensures "{" + Entries(x, SORTED, keep)[1..] == Written(x)
  {
    hide Entries, Entry, PyJson.Dumps, Piece, With, Also;
    AllPieces(x, keep);
    BasePiece(x, ActionTypeField, keep);
    ExtraPiece(x, AsOfField, keep);
    ExtraPiece(x, EventField, keep);
    BasePiece(x, BehalfField, keep);
    ExtraPiece(x, PriorField, keep);
    BasePiece(x, EntityField, keep);
    BasePiece(x, RuleField, keep);
    BasePiece(x, UtiField, keep);
    FirstMember(x);
    DropComma(With("action_type", x.actionType), "{\"action_type\":" + PyJson.Dumps(x.actionType),
              Also("as_of", x.asOf), Also("event_ref", x.eventRef), With("on_behalf_of", x.onBehalfOf),
              Also("prior_ref", x.priorRef), With("reporting_entity", x.reportingEntity),
              With("rule_set", x.ruleSet), With("uti", x.uti));
  }

  lemma FirstMember(x: Identity)
    ensures var first := With("action_type", x.actionType);
      first != "" && "{" + first[1..] == "{\"action_type\":" + PyJson.Dumps(x.actionType)
  {
    hide PyJson.Dumps;
    assert ",\"" + "action_type" + "\":" == ",\"action_type\":";
  }

  lemma DropComma(first: string, first': string, b: string, c: string, d: string, e: string, f: string, g: string,
                  u: string)
    requires first != "" && "{" + first[1..] == first'
    ensures "{" + (first + b + c + d + e + f + g + u + "}")[1..] == first' + b + c + d + e + f + g + u + "}"
  {
    var rest := b + (c + (d + (e + (f + (g + (u + "}"))))));
    assert first + b + c + d + e + f + g + u + "}" == first + rest;
    assert (first + rest)[1..] == first[1..] + rest;
    assert first' + b + c + d + e + f + g + u + "}" == first' + rest;
  }

  // ---------------------------------------------------- building the key

  /** `canonical_identity`: every refusal comes before anything is declared. */
  method CanonicalIdentity(x: Identity, clean: string -> bool) returns (payload: Option<Bytes>)
    ensures payload == if Keyable(x, clean) then Some(Canonical(x)) else None
    ensures payload.Some? ==> payload.value == Written(x)
  {
    hide Written;
    hide Entries, IsIsoDate, ValueOf, Keyable;
    KeyableIs(x, clean);
    var extra := ActionType(x.actionType);
    if extra.None? {
      return None;
    }
    var keyed := BASE + extra.value;
    var filled := Fill(x, clean, keyed);
    if filled.None? {
      return None;
    }
    var stray := Stray(x, keyed);
    if stray {
      return None;
    }
    if AsOfField in keyed && !IsIsoDate(x.asOf) {
      return None;
    }
    var text := Dump(x, filled.value, keyed);
    CanonicalText(x, clean);
    return Some(text);
  }

  /** The keyed fields, if each has a clean value and none but the last-resort
      one is empty. */
  method Fill(x: Identity, clean: string -> bool, keyed: seq<Field>) returns (kept: Option<set<Field>>)
    ensures kept.Some? <==> forall f :: f in keyed ==> clean(ValueOf(x, f)) && (f == BehalfField || ValueOf(x, f) != "")
    ensures kept.Some? ==> kept.value == set f | f in keyed
  {
    hide ValueOf;
    var so: set<Field> := {};
    for k := 0 to |keyed|
      invariant so == set f | f in keyed[..k]
      invariant forall f :: f in keyed[..k] ==> clean(ValueOf(x, f)) && (f == BehalfField || ValueOf(x, f) != "")
    {
      var value := ValueOf(x, keyed[k]);
      assert keyed[k] in keyed;
      if (keyed[k] != BehalfField && value == "") || !clean(value) {
        return None;
      }
      so := so + {keyed[k]};
      assert keyed[..k + 1] == keyed[..k] + [keyed[k]];
    }
    assert keyed[..|keyed|] == keyed;
    return Some(so);
  }

  /** A discriminator that does not belong to the action type is filled in. */
  method Stray(x: Identity, keyed: seq<Field>) returns (stray: bool)
    ensures stray <==> exists f :: f in DISCRIMINATORS && f !in keyed && ValueOf(x, f) != ""
  {
    hide ValueOf;
    for k := 0 to |DISCRIMINATORS|
      invariant forall f :: f in DISCRIMINATORS[..k] && f !in keyed ==> ValueOf(x, f) == ""
    {
      if DISCRIMINATORS[k] in keyed {
        continue;
      }
      assert DISCRIMINATORS[k] in DISCRIMINATORS;
      if ValueOf(x, DISCRIMINATORS[k]) != "" {
        return true;
      }
    }
    assert DISCRIMINATORS[..|DISCRIMINATORS|] == DISCRIMINATORS;
    return false;
  }

  /** `json.dumps(payload, sort_keys=True, separators=(",", ":"))`. */
  method Dump(x: Identity, kept: set<Field>, ghost keyed: seq<Field>) returns (text: Bytes)
    requires kept == (set f | f in keyed) && keyed == Keyed(x.actionType)
    ensures text == Canonical(x)
  {
    hide Keyed, Entry;
    var body: string := "";
    for k := 0 to |SORTED|
      invariant body + Entries(x, SORTED[k..], keyed) == Entries(x, SORTED, keyed)
    {
      ghost var before := body;
      ghost var rest := Entries(x, SORTED[k + 1..], keyed);
      assert SORTED[k..][0] == SORTED[k] && SORTED[k..][1..] == SORTED[k + 1..];
      if SORTED[k] in kept {
        body := body + ("," + Entry(x, SORTED[k]));
        assert before + (("," + Entry(x, SORTED[k])) + rest) == body + rest;
      } else {
        assert before + ("" + rest) == body + rest;
      }
    }
    body := body + "}";
    assert body == Entries(x, SORTED, keyed);
    text := "{" + body[1..];
  }

  /** <scope>:<run>:<tool>:<digest of the canonical bytes>. */
  function DeriveKey(h: Digest, scope: string, run: string, tool: string, canonical: Bytes): string {
    scope + ":" + run + ":" + tool + ":" + h(canonical)
  }

  const TOOL := "report-submit"

  function ReportKey(h: Digest, scope: string, run: string, x: Identity): string {
    DeriveKey(h, scope, run, TOOL, Canonical(x))
  }

  /** Within one scope and run, two reports share a key exactly when they are
      one report, or the digest has a collision. */
  lemma KeysSeparate(h: Digest, scope: string, run: string, a: Identity, b: Identity, clean: string -> bool)
    requires Keyable(a, clean) && Keyable(b, clean)
    ensures a == b ==> ReportKey(h, scope, run, a) == ReportKey(h, scope, run, b)
    ensures ReportKey(h, scope, run, a) == ReportKey(h, scope, run, b) ==>
            a == b || Collision(h, Canonical(a), Canonical(b))
  {
    hide Canonical, Keyable;
    CanonicalInjective(a, b, clean);
    var head := scope + ":" + run + ":" + TOOL + ":";
    assert ReportKey(h, scope, run, a)[|head|..] == h(Canonical(a));
    assert ReportKey(h, scope, run, b)[|head|..] == h(Canonical(b));
  }

  // ---------------------------------------------------- keys across scopes and runs

  /** The colon-separated pieces of a key before its digest. */
  function Pieces(scope: string, run: string, tool: string): seq<string> {
    Split(scope, ':') + Split(run, ':') + Split(tool, ':')
  }

  function Head(scope: string, run: string, tool: string): string { scope + ":" + run + ":" + tool }

  lemma HeadPieces(scope: string, run: string, tool: string)
    ensures Split(Head(scope, run, tool), ':') == Pieces(scope, run, tool)
  {
    hide Split;
    SplitAppend(scope, ':', run);
    SplitAppend(scope + [':'] + run, ':', tool);
    assert Head(scope, run, tool) == scope + [':'] + run + [':'] + tool;
  }

  lemma KeyPieces(h: Digest, scope: string, run: string, tool: string, x: Bytes)
    ensures Split(DeriveKey(h, scope, run, tool, x), ':') == Pieces(scope, run, tool) + [h(x)]
  {
    hide Split, Pieces;
    HeadPieces(scope, run, tool);
    SplitAppend(Head(scope, run, tool), ':', h(x));
    SplitAbsent(h(x), ':');
    assert DeriveKey(h, scope, run, tool, x) == Head(scope, run, tool) + [':'] + h(x);
  }

  /** Two declarations derive one key exactly when their scopes, runs and tools
      have the same colon-separated pieces and their arguments one digest. */
  lemma SameKeyExactly(h: Digest, s: string, r: string, t: string, x: Bytes, s': string, r': string, t': string,
                       y: Bytes)
    ensures DeriveKey(h, s, r, t, x) == DeriveKey(h, s', r', t', y) <==>
            Pieces(s, r, t) == Pieces(s', r', t') && h(x) == h(y)
  {
    hide Split, Pieces, DeriveKey;
    KeyPieces(h, s, r, t, x);
    KeyPieces(h, s', r', t', y);
    var k, k' := DeriveKey(h, s, r, t, x), DeriveKey(h, s', r', t', y);
    var a, b := Pieces(s, r, t), Pieces(s', r', t');
    JoinSplit(k, ':');
    JoinSplit(k', ':');
    if k == k' {
      assert (a + [h(x)])[..|a|] == a && (b + [h(y)])[..|b|] == b;
    }
  }

  /** Where scopes and runs hold no colon, the pieces tell them apart. */
  lemma PiecesTell(s: string, r: string, t: string, s': string, r': string, t': string)
    requires ':' !in s && ':' !in r && ':' !in s' && ':' !in r'
    ensures Pieces(s, r, t) <= Pieces(s', r', t') <==> s == s' && r == r' && Split(t, ':') <= Split(t', ':')
    ensures Pieces(s, r, t) == Pieces(s', r', t') <==> s == s' && r == r' && t == t'
  {
    SplitAbsent(s, ':');
    SplitAbsent(r, ':');
    SplitAbsent(s', ':');
    SplitAbsent(r', ':');
    hide Split;
    var a, b := Split(t, ':'), Split(t', ':');
    JoinSplit(t, ':');
    JoinSplit(t', ':');
    assert Pieces(s, r, t) == [s, r] + a && Pieces(s', r', t') == [s', r'] + b;
    assert ([s, r] + a)[2..] == a && ([s', r'] + b)[2..] == b;
    assert ([s, r] + a)[0] == s && ([s', r'] + b)[0] == s' && ([s, r] + a)[1] == r && ([s', r'] + b)[1] == r';
  }

  /** With colon-free scopes and runs, one key means one scope, one run and one
      report, or a collision. */
  lemma KeysSeparateRuns(h: Digest, scope: string, run: string, a: Identity, scope': string, run': string, b: Identity,
                         clean: string -> bool)
    requires Keyable(a, clean) && Keyable(b, clean)
    requires ':' !in scope && ':' !in run && ':' !in scope' && ':' !in run'
    ensures ReportKey(h, scope, run, a) == ReportKey(h, scope', run', b) ==>
            scope == scope' && run == run' && (a == b || Collision(h, Canonical(a), Canonical(b)))
  {
    hide Canonical, Keyable, DeriveKey, Pieces;
    CanonicalInjective(a, b, clean);
    SameKeyExactly(h, scope, run, TOOL, Canonical(a), scope', run', TOOL, Canonical(b));
    PiecesTell(scope, run, TOOL, scope', run', TOOL);
  }

  /** With colons in them, two runs can derive the same key for every call. */
  lemma RunsShareKeys(h: Digest, tool: string, x: Bytes)
    ensures DeriveKey(h, "a:b", "c", tool, x) == DeriveKey(h, "a", "b:c", tool, x)
  {
    assert "a:b" + ":" + "c" == "a" + ":" + "b:c";
  }

  // ---------------------------------------------------- gating submissions

  datatype Refusal =
    | ReportUnkeyable | SpecUnmapped | AlreadyAchieved
    | IntentRefused(class_: D.Class, retrySafe: bool)

  /** One spec hash for every action type, or one per action type. */
  datatype Specs = Single(hash: string) | PerType(hashes: map<string, string>)

  datatype BatchOutcome = Submitted(key: string) | Refused(cause: Refusal)

  /** What one declaration meets: an answer and the consult that may follow, or
      a transport error, which the client raises again. */
  datatype Exchange = Exchange(response: D.Response, consult: D.Consult) | NoAnswer

  /** The declaration is sent. */
  ghost predicate Declares(x: Identity, clean: string -> bool, specs: Specs) {
    Keyable(x, clean) && (specs.Single? || x.actionType in specs.hashes)
  }

  /** The declaration's own answer lets `submit()` run. */
  ghost predicate Opens(x: Identity, clean: string -> bool, specs: Specs, e: Exchange) {
    Declares(x, clean, specs) && e.Exchange? && D.FreshProceed(D.Decide(e.response, e.consult))
  }

  /** An exception other than a gate refusal leaves the call: the transport
      failed, or `submit()` ran and raised. */
  ghost predicate Propagates(x: Identity, clean: string -> bool, specs: Specs, e: Exchange, raises: bool) {
    (Declares(x, clean, specs) && e.NoAnswer?) || (raises && Opens(x, clean, specs, e))
  }

  /** One record's fate, from its identity, the spec map and the exchange. */
  ghost predicate Fate(h: Digest, x: Identity, clean: string -> bool, specs: Specs, scope: string,
                       run: string, e: Exchange, o: BatchOutcome) {
    if !Keyable(x, clean) then o == Refused(ReportUnkeyable)
    else if specs.PerType? && x.actionType !in specs.hashes then o == Refused(SpecUnmapped)
    else
      e.Exchange? &&
      var res := D.Decide(e.response, e.consult);
      if D.FreshProceed(res) then o == Submitted(scope + ":" + run + ":report-submit:" + h(Written(x)))
      else if res.verdict.class_ == D.Proceed then o == Refused(AlreadyAchieved)
      else o == Refused(IntentRefused(res.verdict.class_, res.verdict.retrySafe))
  }

  lemma KeyText(h: Digest, scope: string, run: string, x: Bytes)
    ensures DeriveKey(h, scope, run, TOOL, x) == scope + ":" + run + ":report-submit:" + h(x)
  {
    assert scope + ":" + run + ":" + TOOL + ":" == scope + ":" + run + ":report-submit:";
  }

  /** `gate_submission`: `raises` says what `submit()` would do, `ran` whether it
      was called; None when an exception propagates. */
  method GateSubmission(h: Digest, x: Identity, clean: string -> bool, specs: Specs, scope: string,
                        run: string, e: Exchange, raises: bool)
    returns (o: Option<BatchOutcome>, declared: bool, ran: bool)
    ensures o.None? <==> Propagates(x, clean, specs, e, raises)
    ensures o.Some? ==> Fate(h, x, clean, specs, scope, run, e, o.value)
    ensures declared <==> Declares(x, clean, specs)
    ensures ran <==> Opens(x, clean, specs, e)
    ensures ran ==> e.response.Reply? && e.response.terminal == "ACHIEVED"
  {
    hide Keyable, Canonical, Written, DeriveKey, D.Classify, D.ClassifyRecord;
    var payload := CanonicalIdentity(x, clean);
    if payload.None? {
      return Some(Refused(ReportUnkeyable)), false, false;
    }
    if specs.PerType? && x.actionType !in specs.hashes {
      return Some(Refused(SpecUnmapped)), false, false;
    }
    var key := DeriveKey(h, scope, run, TOOL, payload.value);
    KeyText(h, scope, run, payload.value);
    if e.NoAnswer? {
      return None, true, false;
    }
    var res := D.Declare(e.response, e.consult);
    D.OnlyReplyProceeds(e.response, e.consult);
    if res.verdict.class_ == D.Proceed {
      if res.status == 200 && res.terminal.Some? {
        return if raises then None else Some(Submitted(key)), true, true;
      }
      return Some(Refused(AlreadyAchieved)), true, false;
    }
    return Some(Refused(IntentRefused(res.verdict.class_, res.verdict.retrySafe))), true, false;
  }

  /** `gate_batch`: each record on its own, in order, one outcome each; the
      submissions that ran are exactly those whose own answer opened the door.
      An exception that propagates ends the batch without outcomes: what ran
      until then, and only that, has run. */
  method GateBatch(h: Digest, items: seq<Identity>, clean: string -> bool, specs: Specs, scope: string,
                   run: string, exchanges: seq<Exchange>, raises: seq<bool>)
    returns (out: Option<seq<BatchOutcome>>, ran: seq<nat>)
    requires |exchanges| == |items| == |raises|
    ensures out.Some? <==> forall k :: 0 <= k < |items| ==> !Propagates(items[k], clean, specs, exchanges[k], raises[k])
    ensures out.Some? ==> |out.value| == |items| && forall k :: 0 <= k < |items| ==>
      Fate(h, items[k], clean, specs, scope, run, exchanges[k], out.value[k])
    ensures forall k :: k in ran <==>
      0 <= k < |items| && Opens(items[k], clean, specs, exchanges[k]) &&
      forall j :: 0 <= j < k ==> !Propagates(items[j], clean, specs, exchanges[j], raises[j])
    ensures forall j, k :: 0 <= j < k < |ran| ==> ran[j] < ran[k]
  {
    hide Fate, Propagates, Opens;
    ran := [];
    var done: seq<BatchOutcome> := [];
    for i := 0 to |items|
      invariant |done| == i
      invariant forall k :: 0 <= k < i ==> Fate(h, items[k], clean, specs, scope, run, exchanges[k], done[k])
      invariant forall k :: 0 <= k < i ==> !Propagates(items[k], clean, specs, exchanges[k], raises[k])
      invariant forall k :: k in ran <==> 0 <= k < i && Opens(items[k], clean, specs, exchanges[k])
      invariant forall j, k :: 0 <= j < k < |ran| ==> ran[j] < ran[k]
    {
      var o, declared, did := GateSubmission(h, items[i], clean, specs, scope, run, exchanges[i], raises[i]);
      assert forall k :: 0 <= k < |ran| ==> ran[k] in ran;
      if did {
        ran := ran + [i];
      }
      if o.None? {
        return None, ran;
      }
      done := done + [o.value];
    }
    return Some(done), ran;
  }

  // ---------------------------------------------------- reconciliation

  /** A feed record as `reconcile` reads it. */
  datatype FeedRow = FeedRow(typ: string, key: string)

  datatype Reconciliation = Reconciliation(
    matched: set<string>, achievedWithoutSubmission: set<string>, submissionsWithoutAchieved: set<string>,
    duplicateSubmissions: set<string>, duplicateAchieved: set<string>)

  function Prefix(scope: string, run: string): string { scope + ":" + run + ":" + TOOL + ":" }

  /** The prefix selects a key exactly when its pieces begin with those of this
      scope, run and tool. */
  lemma PrefixSelects(h: Digest, scope: string, run: string, s: string, r: string, t: string, x: Bytes)
    ensures HasPrefix(DeriveKey(h, s, r, t, x), Prefix(scope, run)) <==> Pieces(scope, run, TOOL) <= Pieces(s, r, t)
  {
    hide Split, Pieces, DeriveKey;
    var key, head := DeriveKey(h, s, r, t, x), Head(scope, run, TOOL);
    KeyPieces(h, s, r, t, x);
    HeadPieces(scope, run, TOOL);
    PrefixSplits(head, key);
    assert Prefix(scope, run) == head + [':'];
    var a, b := Pieces(scope, run, TOOL), Pieces(s, r, t);
    assert (b + [h(x)])[..|b|] == b;
    if a <= b + [h(x)] && |a| <= |b| {
      assert a == (b + [h(x)])[..|a|] == b[..|a|];
    }
    if a <= b {
      assert b + [h(x)] == a + (b[|a|..] + [h(x)]);
    }
  }

  /** A string begins with another and a colon exactly when its pieces properly
      begin with the other's. */
  lemma PrefixSplits(p: string, s: string)
    ensures HasPrefix(s, p + [':']) <==> Split(p, ':') <= Split(s, ':') && |Split(p, ':')| < |Split(s, ':')|
  {
    hide Split;
    var a, b := Split(p, ':'), Split(s, ':');
    if HasPrefix(s, p + [':']) {
      var rest := s[|p| + 1..];
      assert s == p + [':'] + rest;
      SplitAppend(p, ':', rest);
    }
    if a <= b && |a| < |b| {
      var rest := b[|a|..];
      assert b == a + rest;
      JoinSplit(p, ':');
      JoinSplit(s, ':');
      JoinAppend(a, rest, [':']);
    }
  }

  /** With colon-free scopes and runs, `reconcile` reads its own run only. */
  lemma OwnRunOnly(h: Digest, scope: string, run: string, s: string, r: string, x: Bytes)
    requires ':' !in scope && ':' !in run && ':' !in s && ':' !in r
    ensures HasPrefix(DeriveKey(h, s, r, TOOL, x), Prefix(scope, run)) <==> s == scope && r == run
  {
    hide Pieces, DeriveKey, Prefix;
    PrefixSelects(h, scope, run, s, r, TOOL, x);
    PiecesTell(scope, run, TOOL, s, r, TOOL);
  }

  /** The keys of the ACHIEVED rows of this scope, run and tool. */
  function AchievedKeys(rows: seq<FeedRow>, prefix: string): multiset<string> {
    if rows == [] then multiset{}
    else
      var row := rows[|rows| - 1];
      AchievedKeys(rows[..|rows| - 1], prefix) +
      (if row.typ == "ACHIEVED" && HasPrefix(row.key, prefix) then multiset{row.key} else multiset{})
  }

  /** The keys of the logged submissions. */
  function LoggedKeys(h: Digest, log: seq<Identity>, scope: string, run: string): multiset<string> {
    if log == [] then multiset{}
    else LoggedKeys(h, log[..|log| - 1], scope, run) + multiset{ReportKey(h, scope, run, log[|log| - 1])}
  }

  ghost predicate Reconciles(r: Reconciliation, achieved: multiset<string>, logged: multiset<string>) {
    && (forall k :: k in r.matched <==> achieved[k] == 1 && logged[k] == 1)
    && (forall k :: k in r.achievedWithoutSubmission <==> achieved[k] > 0 && logged[k] == 0)
    && (forall k :: k in r.submissionsWithoutAchieved <==> logged[k] > 0 && achieved[k] == 0)
    && (forall k :: k in r.duplicateSubmissions <==> logged[k] > 1)
    && (forall k :: k in r.duplicateAchieved <==> achieved[k] > 1)
  }

  /** `d[key] = d.get(key, 0) + 1` */
  function Bump(d: map<string, nat>, key: string): map<string, nat> { d[key := (if key in d then d[key] else 0) + 1] }

  /** A dict of counts holds exactly the keys that occur, with how often. */
  ghost predicate Counts(d: map<string, nat>, m: multiset<string>) {
    forall k :: (k in d <==> m[k] > 0) && (k in d ==> d[k] == m[k])
  }

  lemma BumpCounts(d: map<string, nat>, m: multiset<string>, key: string)
    requires Counts(d, m)
    ensures Counts(Bump(d, key), m + multiset{key})
  {}

  /** Recompute every logged submission's key and compare; a logged submission
      that cannot be keyed is a finding about the log. */
  method Reconcile(h: Digest, rows: seq<FeedRow>, log: seq<Identity>, clean: string -> bool, scope: string, run: string)
    returns (r: Option<Reconciliation>)
    ensures r.None? <==> exists x :: x in log && !Keyable(x, clean)
    ensures r.Some? ==> Reconciles(r.value, AchievedKeys(rows, Prefix(scope, run)), LoggedKeys(h, log, scope, run))
  {
    hide Keyable, Canonical, Reconciles, AchievedKeys, LoggedKeys;
    var achieved := CountAchieved(rows, Prefix(scope, run));
    var counted := CountLogged(h, log, clean, scope, run);
    if counted.None? {
      return None;
    }
    var rec := Compare(achieved, counted.value, AchievedKeys(rows, Prefix(scope, run)), LoggedKeys(h, log, scope, run));
    return Some(rec);
  }

  method CountAchieved(rows: seq<FeedRow>, prefix: string) returns (achieved: map<string, nat>)
    ensures Counts(achieved, AchievedKeys(rows, prefix))
  {
    achieved := map[];
    for k := 0 to |rows|
      invariant Counts(achieved, AchievedKeys(rows[..k], prefix))
    {
      hide Counts, Bump;
      assert rows[..k + 1][..k] == rows[..k];
      var m := AchievedKeys(rows[..k], prefix);
      assert m + multiset{} == m;
      if rows[k].typ != "ACHIEVED" {
        continue;
      }
      var key := rows[k].key;
      if !HasPrefix(key, prefix) {
        continue;
      }
      BumpCounts(achieved, m, key);
      achieved := Bump(achieved, key);
    }
    assert rows[..|rows|] == rows;
  }

  method CountLogged(h: Digest, log: seq<Identity>, clean: string -> bool, scope: string, run: string)
    returns (logged: Option<map<string, nat>>)
    ensures logged.None? <==> exists x :: x in log && !Keyable(x, clean)
    ensures logged.Some? ==> Counts(logged.value, LoggedKeys(h, log, scope, run))
  {
    hide Keyable, Canonical, Written, DeriveKey, LoggedKeys;
    NothingLogged(h, scope, run);
    var d: map<string, nat> := map[];
    for k := 0 to |log|
      invariant Counts(d, LoggedKeys(h, log[..k], scope, run))
      invariant forall j :: 0 <= j < k ==> Keyable(log[j], clean)
    {
      hide Counts, Bump;
      var payload := CanonicalIdentity(log[k], clean);
      if payload.None? {
        return None;
      }
      var key := DeriveKey(h, scope, run, TOOL, payload.value);
      LoggedSnoc(h, log[..k], log[k], scope, run);
      assert log[..k + 1] == log[..k] + [log[k]];
      BumpCounts(d, LoggedKeys(h, log[..k], scope, run), key);
      d := Bump(d, key);
    }
    assert log[..|log|] == log;
    return Some(d);
  }

  lemma NothingLogged(h: Digest, scope: string, run: string)
    ensures Counts(map[], LoggedKeys(h, [], scope, run))
  {}

  lemma LoggedSnoc(h: Digest, log: seq<Identity>, x: Identity, scope: string, run: string)
    ensures LoggedKeys(h, log + [x], scope, run) ==
      LoggedKeys(h, log, scope, run) + multiset{ReportKey(h, scope, run, x)}
  {
    assert (log + [x])[..|log|] == log;
  }

  method Compare(achieved: map<string, nat>, logged: map<string, nat>, ghost a: multiset<string>,
                 ghost l: multiset<string>)
    returns (r: Reconciliation)
    requires Counts(achieved, a) && Counts(logged, l)
    ensures Reconciles(r, a, l)
  {
    r := Reconciliation(
      set k | k in achieved && k in logged && achieved[k] == 1 && logged[k] == 1,
      set k | k in achieved && k !in logged,
      set k | k in logged && k !in achieved,
      set k | k in logged && logged[k] > 1,
      set k | k in achieved && achieved[k] > 1);
  }
}
