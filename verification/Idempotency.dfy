// The durable reservation store (core/internal/idempotency/store.go): a key
// may be claimed once, across concurrent callers, crashes and restarts.

module Idempotency {
  import opened Text
  import opened Lines
  import opened Json
  import JsonProofs

  datatype Entry = Entry(key: string, id: string)

  // ---------------------------------------------------- one line

  function Members(e: Entry): seq<Member> { [Member("key", Str(e.key)), Member("id", Str(e.id))] }

  function Marshal(e: Entry): Bytes { PrintObject(Members(e)) }

  function Apply(e: Entry, m: Member): Option<Entry> {
    if m.value.Null? || (m.key != "key" && m.key != "id") then Some(e)
    else if !m.value.Str? then None
    else Some(if m.key == "key" then e.(key := m.value.s) else e.(id := m.value.s))
  }

  function ApplyAll(e: Entry, ms: seq<Member>): Option<Entry>
    decreases |ms|
  {
    if ms == [] then Some(e)
    else match Apply(e, ms[0])
      case None => None
      case Some(e') => ApplyAll(e', ms[1..])
  }

  function Unmarshal(line: Bytes): Option<Entry> {
    match Parse(line)
    case None => None
    case Some(v) =>
      if v.Null? then Some(Entry("", "")) else if v.Obj? then ApplyAll(Entry("", ""), v.members) else None
  }

  /** The scanner drops one carriage return at the end of a line. */
  function DropReturn(line: string): string {
    if line != "" && line[|line| - 1] == '\r' then line[..|line| - 1] else line
  }

  /** The reservation on one line; an empty key is never a reservation. */
  function DecodeLine(line: string): seq<Entry> {
    var t := DropReturn(line);
    if t == "" then []
    else match Unmarshal(t)
      case None => []
      case Some(e) => if e.key == "" then [] else [e]
  }

  lemma UnmarshalMarshal(e: Entry)
    ensures Unmarshal(Marshal(e)) == Some(e)
  {
    hide Parse, PrintObject;
    var ms := Members(e);
    assert AreFields(ms);
    JsonProofs.ObjectParses(ms);
    var e1 := Entry(e.key, "");
    assert ms[1..] == [ms[1]] && ms[1..][1..] == [];
    assert Apply(Entry("", ""), ms[0]) == Some(e1);
    assert Apply(e1, ms[1]) == Some(e);
    assert ApplyAll(e1, ms[1..]) == ApplyAll(e, ms[1..][1..]);
  }

  lemma NotJson(p: Bytes)
    requires Parse(p).None?
    ensures Unmarshal(p).None?
  {}

  lemma DecodePrefix(e: Entry, p: Bytes)
    requires e.key != "" && p <= Marshal(e)
    ensures DecodeLine(p) == if p == Marshal(e) then [e] else []
  {
    hide Parse, PrintObject, Unmarshal;
    var ms := Members(e);
    assert AreFields(ms);
    JsonProofs.ObjectOneLine(ms);
    UnmarshalMarshal(e);
    if p != "" {
      assert p[|p| - 1] == Marshal(e)[|p| - 1];
      assert p[|p| - 1] in Marshal(e);
    }
    if p < Marshal(e) {
      JsonProofs.ObjectPrefixFails(ms, p);
      NotJson(p);
    }
  }

  lemma LineAtomic(e: Entry)
    requires e.key != ""
    ensures Atomic(Marshal(e), DecodeLine) && DecodeLine(Marshal(e)) == [e]
  {
    hide PrintObject, DecodeLine, Members;
    assert AreFields(Members(e)) && Members(e) != [] by { MembersAreFields(e); }
    JsonProofs.ObjectOneLine(Members(e));
    DecodePrefix(e, Marshal(e));
    forall p | p < Marshal(e)
      ensures DecodeLine(p) == []
    {
      DecodePrefix(e, p);
    }
  }

  lemma MembersAreFields(e: Entry)
    ensures AreFields(Members(e)) && Members(e) != []
  {}

  // ---------------------------------------------------- the store as a value

  /** The reservations of a list of entries, later lines winning. */
  function ToMap(es: seq<Entry>): map<string, string> {
    if es == [] then map[]
    else ToMap(es[..|es| - 1])[es[|es| - 1].key := es[|es| - 1].id]
  }

  lemma ToMapSnoc(es: seq<Entry>, e: Entry)
    ensures ToMap(es + [e]) == ToMap(es)[e.key := e.id]
  {
    assert (es + [e])[..|es|] == es;
  }

  function Recovered(disk: Bytes): map<string, string> { ToMap(Recover(disk, DecodeLine)) }

  datatype Store = Store(disk: Bytes, reserved: map<string, string>, needsNL: bool)

  function Opened(disk: Bytes): Store { Store(disk, Recovered(disk), Unterminated(disk)) }

  function ReserveWrite(s: Store, e: Entry): Bytes { WriteOf(s.needsNL, Marshal(e)) }

  predicate Free(s: Store, key: string) { key != "" && key !in s.reserved }

  /** The store after `Reserve`; only a free key changes anything. */
  function Reserved(s: Store, id: string, key: string): Store {
    if !Free(s, key) then s
    else Store(s.disk + ReserveWrite(s, Entry(key, id)), s.reserved[key := id], false)
  }

  /** A crash inside the write of a reservation, then a restart. */
  function Torn(s: Store, id: string, key: string, n: nat): Store
    requires n <= |ReserveWrite(s, Entry(key, id))|
  {
    Opened(s.disk + ReserveWrite(s, Entry(key, id))[..n])
  }

  predicate Sound(s: Store) { s == Opened(s.disk) }

  lemma RecoveredTorn(s: Store, id: string, key: string, n: nat)
    requires Sound(s) && key != ""
    requires n <= |ReserveWrite(s, Entry(key, id))|
    ensures Recovered(s.disk + ReserveWrite(s, Entry(key, id))[..n]) ==
      if n >= |ReserveWrite(s, Entry(key, id))| - 1 then s.reserved[key := id] else s.reserved
  {
    hide Recover, Marshal, DecodeLine, Unterminated, WriteOf;
    var e := Entry(key, id);
    LineAtomic(e);
    EmptyLine();
    RecoverTorn(s.disk, Marshal(e), n, DecodeLine);
    var es := Recover(s.disk, DecodeLine);
    assert (es + [e])[..|es|] == es;
    assert es + [] == es;
  }

  lemma EmptyLine()
    ensures DecodeLine("") == []
  {}

  /** What is reserved in memory is exactly what a restart recovers. */
  lemma ReserveSound(s: Store, id: string, key: string)
    requires Sound(s)
    ensures Sound(Reserved(s, id, key))
  {
    hide Recovered, Marshal, WriteOf;
    if Free(s, key) {
      var w := ReserveWrite(s, Entry(key, id));
      RecoveredTorn(s, id, key, |w|);
      assert w[..|w|] == w;
      WriteTerminated(s, Entry(key, id));
    }
  }

  lemma WriteTerminated(s: Store, e: Entry)
    ensures !Unterminated(s.disk + ReserveWrite(s, e))
  {
    hide Marshal;
  }

  /** A crash inside `Reserve` either reserved the key or changed nothing;
      no earlier reservation is lost. */
  lemma TornSound(s: Store, id: string, key: string, n: nat)
    requires Sound(s) && Free(s, key) && n <= |ReserveWrite(s, Entry(key, id))|
    ensures Sound(Torn(s, id, key, n))
    ensures Torn(s, id, key, n).reserved ==
      if n >= |ReserveWrite(s, Entry(key, id))| - 1 then s.reserved[key := id] else s.reserved
  {
    hide Recovered, ReserveWrite;
    RecoveredTorn(s, id, key, n);
  }

  lemma EmptyFile()
    ensures Opened("").reserved == map[]
  {
    hide Unmarshal;
    RecoverPiece("", DecodeLine);
  }

  // ---------------------------------------------------- the store object

  class IdemStore {
    var disk: Bytes
    var reserved: map<string, string>
    var needsNL: bool

    ghost function View(): Store
      reads this
    {
      Store(disk, reserved, needsNL)
    }

    constructor Open(content: Bytes)
      ensures View() == Opened(content)
    {
      hide Recovered;
      disk := content;
      new;
      reserved, needsNL := Scan(content);
    }

    /** `recover`: every line in order, then the newline flag from the last byte. */
    static method Scan(content: Bytes) returns (reserved: map<string, string>, torn: bool)
      ensures reserved == Recovered(content) && torn == Unterminated(content)
    {
      hide Recover, DecodeLine;
      reserved := map[];
      ghost var es: seq<Entry> := [];
      assert content[0..] == content;
      var pos := 0;
      var eof := false;
      while !eof
        invariant 0 <= pos <= |content|
        invariant if eof then es == Recover(content, DecodeLine)
                  else Recover(content, DecodeLine) == es + RecoverFrom(content, pos, DecodeLine)
        invariant reserved == ToMap(es)
        decreases !eof, |content| - pos
      {
        hide *;
        ghost var before := es;
        var line, next;
        line, next, eof := ReadLine(content, pos, DecodeLine);
        ghost var rest := if eof then [] else RecoverFrom(content, next, DecodeLine);
        assert before + (DecodeLine(line) + rest) == before + DecodeLine(line) + rest;
        reserved := ScanLine(line, reserved, es);
        es := es + DecodeLine(line);
        pos := next;
      }
      torn := false;
      if |content| > 0 {
        torn := content[|content| - 1] != '\n';
      }
    }

    static method ScanLine(line: Bytes, reserved: map<string, string>, ghost es: seq<Entry>)
      returns (reserved': map<string, string>)
      requires reserved == ToMap(es)
      ensures reserved' == ToMap(es + DecodeLine(line))
    {
      hide Unmarshal, ToMap;
      reserved' := reserved;
      assert es + [] == es;
      var token: Bytes := DropReturn(line);
      if |token| > 0 {
        var r: Option<Entry> := Unmarshal(token);
        if r.Some? && r.value.key != "" {
          ToMapSnoc(es, r.value);
          reserved' := reserved[r.value.key := r.value.id];
        }
      }
    }

    /** Claim a key: true on a fresh key, false on a collision or an empty
        key. A collision writes nothing. */
    method Reserve(id: string, key: string) returns (ok: bool)
      modifies this
      ensures ok == (key != "" && key !in old(reserved))
      ensures View() == Reserved(old(View()), id, key)
      ensures ok ==> reserved == old(reserved)[key := id]
      ensures !ok ==> View() == old(View())
      ensures old(Sound(View())) ==> Sound(View())
    {
      hide Marshal, Recovered;
      if old(Sound(View())) {
        ReserveSound(View(), id, key);
      }
      if key == "" {
        return false;
      }
      if key in reserved {
        return false;
      }
      var line := Marshal(Entry(key, id));
      var buf: Bytes := "";
      if needsNL {
        buf := buf + "\n";
      }
      buf := buf + line + "\n";
      disk := disk + buf;
      needsNL := false;
      reserved := reserved[key := id];
      return true;
    }
  }
}
