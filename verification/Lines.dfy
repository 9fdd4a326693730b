// A line-oriented append-only file: what a reader recovers from it, and what
// a write cut off at any byte leaves behind. Both stores are instances.

module Lines {
  import opened Text

  /** What a decoder finds on each line, in order. */
  function DecodeAll<T>(lines: seq<string>, dec: string -> seq<T>): seq<T> {
    if lines == [] then [] else dec(lines[0]) + DecodeAll(lines[1..], dec)
  }

  function Recover<T>(disk: Bytes, dec: string -> seq<T>): seq<T> { DecodeAll(Split(disk, '\n'), dec) }

  /** The file ends in a line without its newline. */
  predicate Unterminated(disk: Bytes) { disk != "" && disk[|disk| - 1] != '\n' }

  /** The bytes of one write: a newline first when the file ends torn. */
  function WriteOf(repair: bool, line: Bytes): Bytes { (if repair then "\n" else "") + line + "\n" }

  /** A line none of whose proper prefixes decodes to anything. */
  ghost predicate Atomic<T>(line: Bytes, dec: string -> seq<T>) {
    '\n' !in line && line != "" && forall p :: p < line ==> dec(p) == []
  }

  lemma {:induction false} DecodeAppend<T>(a: seq<string>, b: seq<string>, dec: string -> seq<T>)
    ensures DecodeAll(a + b, dec) == DecodeAll(a, dec) + DecodeAll(b, dec)
    decreases |a|
  {
    if a == [] {
      assert a + b == b;
    } else {
      DecodeAppend(a[1..], b, dec);
      assert (a + b)[1..] == a[1..] + b;
    }
  }

  lemma RecoverAppend<T>(a: Bytes, b: Bytes, dec: string -> seq<T>)
    ensures Recover(a + "\n" + b, dec) == Recover(a, dec) + Recover(b, dec)
  {
    hide Split, DecodeAll;
    SplitAppend(a, '\n', b);
    DecodeAppend(Split(a, '\n'), Split(b, '\n'), dec);
  }

  lemma RecoverPiece<T>(p: Bytes, dec: string -> seq<T>)
    requires '\n' !in p
    ensures Recover(p, dec) == dec(p)
  {
    SplitAbsent(p, '\n');
    assert DecodeAll([p], dec) == dec(p) + DecodeAll([], dec);
  }

  lemma RecoverNewline<T>(a: Bytes, dec: string -> seq<T>)
    requires dec("") == []
    ensures Recover(a + "\n", dec) == Recover(a, dec)
  {
    hide Recover;
    RecoverAppend(a, "", dec);
    RecoverPiece("", dec);
    assert a + "\n" == a + "\n" + "";
  }

  /** A new line never glues onto what the file already holds. */
  lemma RecoverTail<T>(disk: Bytes, p: Bytes, dec: string -> seq<T>)
    requires '\n' !in p && dec("") == []
    ensures Recover(disk + (if Unterminated(disk) then "\n" else "") + p, dec) == Recover(disk, dec) + dec(p)
  {
    hide Recover;
    RecoverPiece(p, dec);
    if Unterminated(disk) {
      RecoverAppend(disk, p, dec);
    } else if disk == "" {
      RecoverPiece("", dec);
      assert disk + "" + p == p;
    } else {
      var a := disk[..|disk| - 1];
      assert disk == a + "\n" && disk + "" + p == a + "\n" + p;
      RecoverAppend(a, p, dec);
      RecoverNewline(a, dec);
    }
  }

  lemma PrefixOneLine(line: Bytes, p: Bytes)
    requires '\n' !in line && p <= line
    ensures '\n' !in p
  {
    forall k | 0 <= k < |p|
      ensures p[k] != '\n'
    {
      assert p[k] == line[k];
    }
  }

  /** What a prefix of a write leaves: what was there, plus the new line's
      content once the whole line is on disk, newline or not. */
  lemma RecoverTorn<T>(disk: Bytes, line: Bytes, n: nat, dec: string -> seq<T>)
    requires dec("") == [] && Atomic(line, dec)
    requires n <= |WriteOf(Unterminated(disk), line)|
    ensures Recover(disk + WriteOf(Unterminated(disk), line)[..n], dec) ==
            Recover(disk, dec) + (if n >= |WriteOf(Unterminated(disk), line)| - 1 then dec(line) else [])
  {
    hide Recover, Unterminated;
    var nl := if Unterminated(disk) then "\n" else "";
    var w := WriteOf(Unterminated(disk), line);
    if n < |nl| {
      assert disk + w[..n] == disk;
    } else if n <= |nl| + |line| {
      var p := line[..n - |nl|];
      assert w[..n] == nl + p;
      PrefixOneLine(line, p);
      assert p == line || p < line;
      RecoverTail(disk, p, dec);
      assert disk + w[..n] == disk + nl + p;
    } else {
      RecoverTail(disk, line, dec);
      RecoverNewline(disk + nl + line, dec);
      assert disk + w[..n] == disk + nl + line + "\n";
    }
  }

  // ---------------------------------------------------- where each value stands

  /** Line numbers, counted from 0, in ascending order. */
  ghost predicate Ascending(at: seq<nat>, below: nat) {
    (forall k :: 0 <= k < |at| ==> at[k] < below) && forall j, k :: 0 <= j < k < |at| ==> at[j] < at[k]
  }

  /** The values are those of the lines that hold one, one each, in order. */
  ghost predicate Drawn<T(!new)>(lines: seq<string>, holds: (string, T) -> bool, rs: seq<T>, at: seq<nat>) {
    && |at| == |rs| && Ascending(at, |lines|)
    && (forall k :: 0 <= k < |rs| ==> holds(lines[at[k]], rs[k]))
    && forall m, r :: 0 <= m < |lines| && holds(lines[m], r) ==> m in at
  }

  lemma {:induction false} DrawnFrom<T(!new)>(lines: seq<string>, dec: string -> seq<T>, holds: (string, T) -> bool)
    returns (at: seq<nat>)
    requires forall l :: |dec(l)| <= 1
    requires forall l, r :: holds(l, r) <==> dec(l) == [r]
    ensures Drawn(lines, holds, DecodeAll(lines, dec), at)
  {
    if lines == [] {
      return [];
    }
    var n := |lines| - 1;
    var last := lines[n];
    var before := DrawnFrom(lines[..n], dec, holds);
    assert lines == lines[..n] + [last];
    DecodeAppend(lines[..n], [last], dec);
    assert DecodeAll([last], dec) == dec(last) + DecodeAll([last][1..], dec) == dec(last);
    hide DecodeAll;
    at := before + (if dec(last) == [] then [] else [n]);
    assert forall m :: m in before ==> m in at;
    assert dec(last) != [] ==> n in at;
    assert dec(last) != [] ==> dec(last) == [dec(last)[0]];
  }

  // ---------------------------------------------------- reading line by line

  function RecoverFrom<T>(content: Bytes, pos: nat, dec: string -> seq<T>): seq<T>
    requires pos <= |content|
  {
    Recover(content[pos..], dec)
  }

  /** The next line from an offset, without its newline: through the next
      newline, or all that is left at the end of the file. */
  method ReadLine<T>(content: Bytes, pos: nat, ghost dec: string -> seq<T>)
    returns (line: Bytes, next: nat, eof: bool)
    requires pos <= |content|
    ensures '\n' !in line && pos <= next <= |content|
    ensures content[pos..next] == if eof then line else line + "\n"
    ensures eof ==> next == |content|
    ensures !eof ==> next > pos
    ensures RecoverFrom(content, pos, dec) == dec(line) + (if eof then [] else RecoverFrom(content, next, dec))
  {
    hide Recover, IndexOf;
    var rest: Bytes := content[pos..];
    var k := IndexOf(rest, '\n');
    line := rest[..k];
    eof := k == |rest|;
    if eof {
      next := |content|;
      assert line == rest == content[pos..next];
      RecoverPiece(rest, dec);
    } else {
      next := pos + k + 1;
      var tail: Bytes := rest[k + 1..];
      assert rest == line + "\n" + tail && tail == content[next..];
      assert content[pos..next] == line + "\n";
      RecoverAppend(line, tail, dec);
      RecoverPiece(line, dec);
    }
  }
}
