// The durable, append-only event feed (core/internal/durable/store.go): its
// file, its in-memory index, and recovery after a crash at any byte.

module Feed {
  import opened Text
  import opened Seqs
  import opened Sorting
  import opened FeedRecord
  import opened Lines
  import Json
  import JsonProofs

  // ---------------------------------------------------- recovery, as a function

  function Trim(s: string): string {
    if s != "" && (s[|s| - 1] == '\n' || s[|s| - 1] == '\r') then Trim(s[..|s| - 1]) else s
  }

  /** The record on one line, if the line holds one. */
  function DecodeLine(line: string): seq<Record> {
    var t := Trim(line);
    if t == "" then []
    else match Unmarshal(t)
      case None => []
      case Some(r) => [r]
  }

  function Recovered(disk: Bytes): seq<Record> { Recover(disk, DecodeLine) }

  function MaxSeq(rs: seq<Record>): (n: int)
    ensures n >= 0
  {
    if rs == [] then 0
    else
      var m := MaxSeq(rs[..|rs| - 1]);
      if rs[|rs| - 1].globalSeq > m then rs[|rs| - 1].globalSeq else m
  }

  /** A store: its file and the three fields kept in memory. */
  datatype Store = Store(disk: Bytes, records: seq<Record>, globalSeq: int, needNewline: bool)

  function Opened(disk: Bytes): Store {
    Store(disk, Recovered(disk), MaxSeq(Recovered(disk)), Unterminated(disk))
  }

  function Stamp(s: Store, r: Record): Record { r.(globalSeq := s.globalSeq + 1) }

  function FeedWrite(s: Store, r: Record): Bytes { WriteOf(s.needNewline, Marshal(Stamp(s, r))) }

  function Appended(s: Store, r: Record): Store {
    Store(s.disk + FeedWrite(s, r), s.records + [Stamp(s, r)], s.globalSeq + 1, false)
  }

  /** The process dies with the first `n` bytes of a write on disk; reopening
      rescans the file. */
  function Torn(s: Store, r: Record, n: nat): Store
    requires n <= |FeedWrite(s, r)|
  {
    Opened(s.disk + FeedWrite(s, r)[..n])
  }

  predicate Numbered(rs: seq<Record>) { forall k :: 0 <= k < |rs| ==> rs[k].globalSeq == k + 1 }

  /** Memory agrees with the file, and the records carry 1..n in order. */
  predicate Sound(s: Store) { s == Opened(s.disk) && Numbered(s.records) }

  // ---------------------------------------------------- recovery lemmas

  lemma EmptyLine()
    ensures DecodeLine("") == []
  {}

  lemma TrimNothing(s: string)
    requires JsonProofs.OneLine(s)
    ensures Trim(s) == s
  {
    if s != "" {
      assert s[|s| - 1] in s;
    }
  }

  /** A whole line holds its record; a proper prefix of it holds none. */
  lemma DecodePrefix(r: Record, p: Bytes)
    requires p <= Marshal(r)
    ensures JsonProofs.OneLine(p)
    ensures DecodeLine(p) == if p == Marshal(r) then [r] else []
  {
    hide Marshal, Unmarshal;
    LineShape(r);
    forall c | c in p
      ensures c in Marshal(r)
    {
      var k :| 0 <= k < |p| && p[k] == c;
      assert Marshal(r)[k] == c;
    }
    TrimNothing(p);
    UnmarshalMarshal(r);
    if p < Marshal(r) && p != "" {
      NotJson(p);
    }
  }

  lemma NotJson(p: Bytes)
    requires Json.Parse(p).None?
    ensures Unmarshal(p).None?
  {}

  lemma LineAtomic(r: Record)
    ensures Atomic(Marshal(r), DecodeLine)
    ensures DecodeLine(Marshal(r)) == [r]
  {
    hide Marshal, DecodeLine;
    LineShape(r);
    DecodePrefix(r, Marshal(r));
    forall p | p < Marshal(r)
      ensures DecodeLine(p) == []
    {
      DecodePrefix(r, p);
    }
  }

  /** What a prefix of a write leaves: the old records, plus the new one once
      all of its line is there, newline or not. */
  lemma RecoveredTorn(s: Store, r: Record, n: nat)
    requires s.needNewline == Unterminated(s.disk)
    requires n <= |FeedWrite(s, r)|
    ensures Recovered(s.disk + FeedWrite(s, r)[..n]) ==
            Recovered(s.disk) + (if n >= |FeedWrite(s, r)| - 1 then [Stamp(s, r)] else [])
  {
    hide Recover, Marshal, DecodeLine, Unterminated, WriteOf;
    EmptyLine();
    LineAtomic(Stamp(s, r));
    RecoverTorn(s.disk, Marshal(Stamp(s, r)), n, DecodeLine);
  }

  lemma {:induction false} MaxOfNumbered(rs: seq<Record>)
    requires Numbered(rs)
    ensures MaxSeq(rs) == |rs|
  {
    if rs != [] {
      MaxOfNumbered(rs[..|rs| - 1]);
    }
  }

  /** Appending keeps memory and file in step and numbers the record n+1. */
  lemma AppendSound(s: Store, r: Record)
    requires Sound(s)
    ensures Sound(Appended(s, r))
    ensures Appended(s, r).records == s.records + [r.(globalSeq := |s.records| + 1)]
  {
    hide Recovered, Marshal;
    var n := |FeedWrite(s, r)|;
    MaxOfNumbered(s.records);
    RecoveredTorn(s, r, n);
    assert FeedWrite(s, r)[..n] == FeedWrite(s, r);
    MaxOfNumbered(s.records + [Stamp(s, r)]);
  }

  /** A crash inside a write loses nothing that was acknowledged and gains at
      most the record in flight, exactly when its whole line reached the disk. */
  lemma TornSound(s: Store, r: Record, n: nat)
    requires Sound(s) && n <= |FeedWrite(s, r)|
    ensures Sound(Torn(s, r, n))
    ensures Torn(s, r, n).records ==
      if n >= |FeedWrite(s, r)| - 1 then s.records + [r.(globalSeq := |s.records| + 1)] else s.records
  {
    hide Recovered, Marshal, FeedWrite;
    MaxOfNumbered(s.records);
    RecoveredTorn(s, r, n);
  }

  lemma OpenedSound(s: Store)
    requires Sound(s)
    ensures Opened(s.disk) == s
  {}

  // ---------------------------------------------------- histories

  /** One thing that can happen to the file: a completed append, a crash
      inside one, or a restart. */
  datatype Op = Append(r: Record) | Crash(r: Record, n: nat) | Reopen

  ghost predicate Step(s: Store, op: Op, s': Store) {
    match op
    case Append(r) => s' == Appended(s, r)
    case Crash(r, n) => n <= |FeedWrite(s, r)| && s' == Torn(s, r, n)
    case Reopen => s' == Opened(s.disk)
  }

  /** `ss` is a history of the feed under `ops`, from an absent file. */
  ghost predicate History(ss: seq<Store>, ops: seq<Op>) {
    |ss| == |ops| + 1 && ss[0] == Opened("") &&
    forall k :: 0 <= k < |ops| ==> Step(ss[k], ops[k], ss[k + 1])
  }

  /** The abstract log: acknowledged appends always count, a record in flight
      at a crash may or may not. */
  ghost predicate LogStep(log: seq<Record>, op: Op, log': seq<Record>) {
    match op
    case Append(r) => log' == log + [r.(globalSeq := |log| + 1)]
    case Crash(r, _) => log' == log || log' == log + [r.(globalSeq := |log| + 1)]
    case Reopen => log' == log
  }

  /** Refinement: over any history of appends, crashes at any byte and
      restarts, the records in memory and the records a reader recovers from
      the file are one log that follows LogStep. */
  lemma {:induction false} RefinesLog(ss: seq<Store>, ops: seq<Op>)
    requires History(ss, ops)
    ensures forall k :: 0 <= k < |ss| ==> Sound(ss[k])
    ensures forall k :: 0 <= k < |ops| ==> LogStep(ss[k].records, ops[k], ss[k + 1].records)
    decreases |ops|
  {
    hide Recovered, Appended, FeedWrite, Sound;
    if |ops| == 0 {
      EmptySound();
    } else {
      var n := |ops| - 1;
      assert History(ss[..n + 1], ops[..n]);
      RefinesLog(ss[..n + 1], ops[..n]);
      assert ss[..n + 1][n] == ss[n];
      StepSound(ss[n], ops[n], ss[n + 1]);
      forall k | 0 <= k < |ss|
        ensures Sound(ss[k])
      {
        assert k <= n ==> ss[..n + 1][k] == ss[k];
      }
      forall k | 0 <= k < |ops|
        ensures LogStep(ss[k].records, ops[k], ss[k + 1].records)
      {
        assert k < n ==> ops[..n][k] == ops[k] && ss[..n + 1][k] == ss[k] && ss[..n + 1][k + 1] == ss[k + 1];
      }
    }
  }

  lemma EmptySound()
    ensures Sound(Opened("")) && Opened("").records == []
  {
    EmptyLine();
    RecoverPiece("", DecodeLine);
  }

  lemma StepSound(s: Store, op: Op, s': Store)
    requires Sound(s) && Step(s, op, s')
    ensures Sound(s') && LogStep(s.records, op, s'.records)
  {
    hide Recovered, FeedWrite;
    match op
    case Append(r) => AppendSound(s, r);
    case Crash(r, n) => TornSound(s, r, n);
    case Reopen => OpenedSound(s);
  }

  /** The point-in-time read: everything at or before a cursor. */
  function AsOf(rs: seq<Record>, cursor: int): seq<Record> {
    Filter(rs, (r: Record) => r.globalSeq <= cursor)
  }

  lemma AsOfNumbered(rs: seq<Record>, cursor: nat)
    requires Numbered(rs) && cursor <= |rs|
    ensures AsOf(rs, cursor) == rs[..cursor]
  {
    hide Filter;
    var p := (r: Record) => r.globalSeq <= cursor;
    FilterAppend(rs[..cursor], rs[cursor..], p);
    assert rs == rs[..cursor] + rs[cursor..];
    FilterAll(rs[..cursor], p);
    FilterNone(rs[cursor..], p);
  }

  lemma {:induction false} HistoryGrows(ss: seq<Store>, ops: seq<Op>, i: nat, j: nat)
    requires History(ss, ops) && i <= j < |ss|
    ensures ss[i].records <= ss[j].records
    decreases j - i
  {
    hide Recovered, Appended, Torn, FeedWrite, Sound;
    RefinesLog(ss, ops);
    if i < j {
      HistoryGrows(ss, ops, i, j - 1);
      assert LogStep(ss[j - 1].records, ops[j - 1], ss[j - 1 + 1].records);
    }
  }

  /** No lookahead: what is visible as of a cursor the feed has reached never
      changes, whatever is appended, torn or reopened later. */
  lemma AsOfImmutable(ss: seq<Store>, ops: seq<Op>, i: nat, j: nat, cursor: nat)
    requires History(ss, ops) && i <= j < |ss| && cursor <= |ss[i].records|
    ensures AsOf(ss[j].records, cursor) == AsOf(ss[i].records, cursor) == ss[i].records[..cursor]
  {
    hide Recovered, Appended, Torn, FeedWrite;
    RefinesLog(ss, ops);
    HistoryGrows(ss, ops, i, j);
    AsOfNumbered(ss[i].records, cursor);
    AsOfNumbered(ss[j].records, cursor);
  }

  // ---------------------------------------------------- reads, as functions

  function Past(since: int, typ: string): Record -> bool {
    (r: Record) => r.globalSeq > since && (typ == "" || r.typ == typ)
  }

  function OfIntent(id: string): Record -> bool { (r: Record) => r.intentId == id }

  function Clock(): Record -> int { (r: Record) => r.intentSeq }

  /** Past a cursor the feed has reached, `Since` returns the rest of the log. */
  lemma SinceNumbered(rs: seq<Record>, since: nat)
    requires Numbered(rs) && since <= |rs|
    ensures Filter(rs, Past(since, "")) == rs[since..]
  {
    hide Filter;
    FilterAppend(rs[..since], rs[since..], Past(since, ""));
    assert rs == rs[..since] + rs[since..];
    FilterNone(rs[..since], Past(since, ""));
    FilterAll(rs[since..], Past(since, ""));
  }

  // ---------------------------------------------------- the store object

  class FeedStore {
    var disk: Bytes
    var records: seq<Record>
    var globalSeq: int
    var needNewline: bool

    ghost function View(): Store
      reads this
    {
      Store(disk, records, globalSeq, needNewline)
    }

    /** Open scans the file; recovery never writes. */
    constructor Open(content: Bytes)
      ensures View() == Opened(content)
    {
      hide Recovered, MaxSeq;
      disk := content;
      new;
      records, globalSeq, needNewline := Scan(content);
    }

    /** The recovery scan: `ReadBytes('\n')` until the end of the file. */
    static method Scan(content: Bytes) returns (recovered: seq<Record>, max: int, torn: bool)
      ensures recovered == Recovered(content) && max == MaxSeq(recovered) && torn == Unterminated(content)
    {
      hide Recover, DecodeLine, MaxSeq, RecoverFrom;
      recovered, max := [], 0;
      NothingScanned(content);
      var pos := 0;
      var lastByte := '\n';
      var eof := false;
      while !eof
        invariant 0 <= pos <= |content|
        invariant if eof then recovered == Recovered(content)
                  else Recovered(content) == recovered + RecoverFrom(content, pos, DecodeLine)
        invariant max == MaxSeq(recovered)
        invariant pos > 0 ==> lastByte == content[pos - 1]
        invariant eof ==> pos == |content|
        decreases !eof, |content| - pos
      {
        hide *;
        ghost var before := recovered;
        var line, next;
        line, next, eof := ReadLine(content, pos, DecodeLine);
        ghost var rest := if eof then [] else RecoverFrom(content, next, DecodeLine);
        assert before + (DecodeLine(line) + rest) == before + DecodeLine(line) + rest;
        if next > pos {
          lastByte := content[next - 1];
        }
        recovered, max := ScanLine(line, recovered, max);
        pos := next;
      }
      torn := pos > 0 && lastByte != '\n';
    }

    static lemma NothingScanned(content: Bytes)
      ensures Recovered(content) == [] + RecoverFrom(content, 0, DecodeLine) && MaxSeq([]) == 0
    {
      assert content[0..] == content;
    }

    /** The scan of one line: trimmed, blank or unparseable lines skipped. */
    static method ScanLine(line: Bytes, recovered: seq<Record>, max: int)
      returns (recovered': seq<Record>, max': int)
      requires max == MaxSeq(recovered)
      ensures recovered' == recovered + DecodeLine(line) && max' == MaxSeq(recovered')
    {
      hide Unmarshal, Trim;
      recovered', max' := recovered, max;
      var trimmed: Bytes := Trim(line);
      if |trimmed| > 0 {
        var rec: Option<Record> := Unmarshal(trimmed);
        if rec.Some? {
          recovered' := recovered + [rec.value];
          assert recovered'[..|recovered|] == recovered;
          if rec.value.globalSeq > max {
            max' := rec.value.globalSeq;
          }
        }
      }
    }

    /** One record, one write, one sync. The caller's globalSeq is ignored. */
    method Append(r: Record) returns (stored: Record)
      modifies this
      ensures View() == Appended(old(View()), r)
      ensures stored == r.(globalSeq := old(globalSeq) + 1)
      ensures old(Sound(View())) ==> Sound(View()) && records == old(records) + [stored]
    {
      hide Marshal, Recover;
      stored := r.(globalSeq := globalSeq + 1);
      var b := Marshal(stored);
      var buf: Bytes := "";
      if needNewline {
        buf := buf + "\n";
      }
      buf := buf + b + "\n";
      ghost var was := View();
      disk := disk + buf;
      needNewline := false;
      globalSeq := stored.globalSeq;
      records := records + [stored];
      if Sound(was) {
        AppendSound(was, r);
      }
    }

    method Since(since: int, typ: string) returns (out: seq<Record>)
      ensures out == Filter(records, Past(since, typ))
      ensures forall r :: r in out <==> r in records && r.globalSeq > since && (typ == "" || r.typ == typ)
    {
      FilterMembers(records, Past(since, typ));
      NothingFiltered<Record>(Past(since, typ));
      hide Filter;
      out := [];
      for k := 0 to |records|
        invariant out == Filter(records[..k], Past(since, typ))
      {
        var r := records[k];
        FilterSnoc(records[..k], r, Past(since, typ));
        assert records[..k + 1] == records[..k] + [r];
        if r.globalSeq <= since {
          continue;
        }
        if typ != "" && r.typ != typ {
          continue;
        }
        out := out + [r];
      }
      assert records[..|records|] == records;
    }

    method ByIntent(id: string) returns (out: seq<Record>)
      ensures out == Sort(Filter(records, OfIntent(id)), Clock())
      ensures multiset(out) == multiset(Filter(records, OfIntent(id))) && Sorted(out, Clock())
      ensures forall k :: WithKey(out, Clock(), k) == WithKey(Filter(records, OfIntent(id)), Clock(), k)
      ensures forall r :: r in out <==> r in records && r.intentId == id
      ensures forall j, k :: 0 <= j < k < |out| ==> out[j].intentSeq <= out[k].intentSeq
    {
      FilterMembers(records, OfIntent(id));
      NothingFiltered<Record>(OfIntent(id));
      hide Filter, Sort, WithKey;
      out := [];
      for k := 0 to |records|
        invariant out == Filter(records[..k], OfIntent(id))
      {
        FilterSnoc(records[..k], records[k], OfIntent(id));
        assert records[..k + 1] == records[..k] + [records[k]];
        if records[k].intentId == id {
          out := out + [records[k]];
        }
      }
      assert records[..|records|] == records;
      SortSorts(out, Clock());
      forall k
        ensures WithKey(Sort(out, Clock()), Clock(), k) == WithKey(out, Clock(), k)
      {
        SortStable(out, Clock(), k);
      }
      SortMembers(out, Clock());
      out := Sort(out, Clock());
    }
  }
}
