// Python's `json.dumps` of strings with its default `ensure_ascii`, over
// strings of Unicode scalar values (escapes per section 7 of RFC 8259).

module PyJson {
  import opened Text
  import opened Json
  import JsonProofs

  predicate Plain(c: char) { ' ' <= c <= '~' && c != '\"' && c != '\\' }

  function ShortEscape(c: char): (e: Option<char>)
    ensures e.Some? ==> e.value != 'u' && e.value != 'U'
  {
    if c == '\"' || c == '\\' then Some(c)
    else if c == '\n' then Some('n')
    else if c == '\r' then Some('r')
    else if c == '\t' then Some('t')
    else if c as int == 12 then Some('f')
    else if c as int == 8 then Some('b')
    else None
  }

  function HighSurrogate(n: nat): (u: nat)
    requires 0x10000 <= n < 0x110000
    ensures 0xD800 <= u < 0xDC00
  {
    0xD800 + (n - 0x10000) / 0x400
  }

  function LowSurrogate(n: nat): (u: nat)
    requires 0x10000 <= n < 0x110000
    ensures 0xDC00 <= u < 0xE000
  {
    0xDC00 + (n - 0x10000) % 0x400
  }

  /** One character as `json.dumps` writes it inside a string. */
  function Unit(c: char): (e: string)
    ensures e != ""
  {
    if Plain(c) then [c]
    else if ShortEscape(c).Some? then ['\\', ShortEscape(c).value]
    else if (c as int) < 0x10000 then "\\u" + Hex4(c as int)
    else "\\u" + Hex4(HighSurrogate(c as int)) + "\\u" + Hex4(LowSurrogate(c as int))
  }

  function Escaped(s: string): string { if s == "" then "" else Unit(s[0]) + Escaped(s[1..]) }

  function Dumps(s: string): string { "\"" + Escaped(s) + "\"" }

  // ---------------------------------------------------- no two strings meet

  lemma ShortInjective(c: char, d: char)
    requires ShortEscape(c).Some? && ShortEscape(c) == ShortEscape(d)
    ensures c == d
  {}

  lemma Hex4Split(m: nat, x: string, n: nat, y: string)
    requires m < 0x10000 && n < 0x10000 && Hex4(m) + x == Hex4(n) + y
    ensures m == n && x == y
  {
    UnhexHex4(m);
    UnhexHex4(n);
    assert (Hex4(m) + x)[..4] == Hex4(m) && (Hex4(n) + y)[..4] == Hex4(n);
    assert (Hex4(m) + x)[4..] == x && (Hex4(n) + y)[4..] == y;
  }

  /** How a unit begins: the character itself, or a backslash and a letter. */
  lemma UnitStart(c: char, rest: string)
    ensures var t := Unit(c) + rest;
      if Plain(c) then t[0] == c && t[0] != '\\' && t[1..] == rest
      else |t| > 1 && t[0] == '\\' &&
           (if ShortEscape(c).Some? then t[1] == ShortEscape(c).value && t[2..] == rest else t[1] == 'u')
  {
    hide Hex4;
  }

  lemma LongUnit(c: char, rest: string)
    requires !Plain(c) && ShortEscape(c).None?
    ensures (Unit(c) + rest)[2..] ==
      if (c as int) < 0x10000 then Hex4(c as int) + rest
      else Hex4(HighSurrogate(c as int)) + ("\\u" + (Hex4(LowSurrogate(c as int)) + rest))
  {
    hide Hex4, Unhex4;
  }

  lemma LongSplit(c: char, x: string, d: char, y: string)
    requires !Plain(c) && ShortEscape(c).None? && !Plain(d) && ShortEscape(d).None?
    requires (Unit(c) + x)[2..] == (Unit(d) + y)[2..]
    ensures c == d && x == y
  {
    hide Hex4, Unit;
    LongUnit(c, x);
    LongUnit(d, y);
    var m: nat := if (c as int) < 0x10000 then c as int else HighSurrogate(c as int);
    var n: nat := if (d as int) < 0x10000 then d as int else HighSurrogate(d as int);
    var mx := if (c as int) < 0x10000 then x else "\\u" + (Hex4(LowSurrogate(c as int)) + x);
    var ny := if (d as int) < 0x10000 then y else "\\u" + (Hex4(LowSurrogate(d as int)) + y);
    Hex4Split(m, mx, n, ny);
    if (c as int) >= 0x10000 {
      var lc, ld := Hex4(LowSurrogate(c as int)) + x, Hex4(LowSurrogate(d as int)) + y;
      assert ("\\u" + lc)[2..] == lc && ("\\u" + ld)[2..] == ld;
      Hex4Split(LowSurrogate(c as int), x, LowSurrogate(d as int), y);
      Pair(c as int, d as int);
    }
  }

  lemma Pair(m: nat, n: nat)
    requires 0x10000 <= m < 0x110000 && 0x10000 <= n < 0x110000
    requires HighSurrogate(m) == HighSurrogate(n) && LowSurrogate(m) == LowSurrogate(n)
    ensures m == n
  {
    var a, b := m - 0x10000, n - 0x10000;
    assert a == 0x400 * (a / 0x400) + a % 0x400 && b == 0x400 * (b / 0x400) + b % 0x400;
  }

  /** No unit is a prefix of another. */
  lemma UnitSplit(c: char, x: string, d: char, y: string)
    requires Unit(c) + x == Unit(d) + y
    ensures c == d && x == y
  {
    hide Unit;
    UnitStart(c, x);
    UnitStart(d, y);
    if !Plain(c) {
      if ShortEscape(c).Some? {
        ShortInjective(c, d);
      } else {
        LongSplit(c, x, d, y);
      }
    }
  }

  lemma UnitNotQuote(c: char, rest: string)
    ensures (Unit(c) + rest)[0] != '\"'
  {
    hide Unit;
    UnitStart(c, rest);
  }

  lemma {:induction false} EscapedSplit(a: string, x: string, b: string, y: string)
    requires Escaped(a) + "\"" + x == Escaped(b) + "\"" + y
    ensures a == b && x == y
    decreases |a|
  {
    hide Unit;
    var left, right := Escaped(a) + "\"" + x, Escaped(b) + "\"" + y;
    if a == "" {
      if b != "" {
        assert right == Unit(b[0]) + (Escaped(b[1..]) + "\"" + y);
        UnitNotQuote(b[0], Escaped(b[1..]) + "\"" + y);
      } else {
        assert left[1..] == x && right[1..] == y;
      }
    } else {
      var ra := Escaped(a[1..]) + "\"" + x;
      assert left == Unit(a[0]) + ra;
      if b == "" {
        UnitNotQuote(a[0], ra);
      } else {
        var rb := Escaped(b[1..]) + "\"" + y;
        assert right == Unit(b[0]) + rb;
        UnitSplit(a[0], ra, b[0], rb);
        EscapedSplit(a[1..], x, b[1..], y);
        assert a == [a[0]] + a[1..] && b == [b[0]] + b[1..];
      }
    }
  }

  /** A quoted string is read back, with what follows it, in one way only. */
  lemma DumpsSplit(a: string, x: string, b: string, y: string)
    requires Dumps(a) + x == Dumps(b) + y
    ensures a == b && x == y
  {
    hide Escaped;
    assert (Dumps(a) + x)[1..] == Escaped(a) + "\"" + x;
    assert (Dumps(b) + y)[1..] == Escaped(b) + "\"" + y;
    EscapedSplit(a, x, b, y);
  }

  // ---------------------------------------------------- read as JSON

  /** The bytes of a string of code points. */
  function Utf8All(s: string): Bytes { if s == "" then "" else Utf8(s[0] as int) + Utf8All(s[1..]) }

  lemma ShortParses(c: char, rest: string)
    requires ShortEscape(c).Some?
    ensures ParseEscape([ShortEscape(c).value] + rest) == Ok(Utf8(c as int), rest)
  {
    JsonProofs.ParseShort(ShortEscape(c).value, rest);
  }

  lemma CodeParses(n: nat, rest: string)
    requires n < 0x10000 && !IsSurrogate(n)
    ensures ParseEscape("u" + Hex4(n) + rest) == Ok(Utf8(n), rest)
  {
    hide Hex4, Unhex4, Utf8;
    var t := "u" + Hex4(n) + rest;
    UnhexHex4(n);
    assert t[1..5] == Hex4(n) && t[5..] == rest;
  }

  lemma PairParses(n: nat, rest: string)
    requires 0x10000 <= n < 0x110000
    ensures ParseEscape("u" + Hex4(HighSurrogate(n)) + ("\\u" + Hex4(LowSurrogate(n)) + rest)) == Ok(Utf8(n), rest)
  {
    hide Hex4, Unhex4, Utf8;
    var hi, lo := HighSurrogate(n), LowSurrogate(n);
    var t := "u" + Hex4(hi) + ("\\u" + Hex4(lo) + rest);
    UnhexHex4(hi);
    UnhexHex4(lo);
    assert t[1..5] == Hex4(hi) && t[5] == '\\' && t[6] == 'u' && t[7..11] == Hex4(lo) && t[11..] == rest;
    assert n - 0x10000 == 1024 * (hi - 0xD800) + (lo - 0xDC00);
  }

  lemma UnitParses(c: char, rest: string)
    requires !Plain(c)
    ensures Unit(c)[0] == '\\' && ParseEscape(Unit(c)[1..] + rest) == Ok(Utf8(c as int), rest)
  {
    hide Hex4, ParseEscape, Utf8, Plain;
    if ShortEscape(c).Some? {
      ShortParses(c, rest);
      assert Unit(c)[1..] == [ShortEscape(c).value];
    } else if (c as int) < 0x10000 {
      CodeParses(c as int, rest);
      assert Unit(c)[1..] == "u" + Hex4(c as int);
    } else {
      PairParses(c as int, rest);
      var hi, lo := Hex4(HighSurrogate(c as int)), Hex4(LowSurrogate(c as int));
      assert Unit(c)[1..] + rest == "u" + hi + ("\\u" + lo + rest);
    }
  }

  /** What is written is the JSON string literal of exactly these characters. */
  lemma {:induction false} DumpsParses(s: string, rest: string)
    ensures ParseString(Dumps(s)[1..] + rest) == Ok(Utf8All(s), rest)
    decreases |s|
  {
    hide ParseEscape, Unit, Utf8;
    var t := Escaped(s) + "\"" + rest;
    assert Dumps(s)[1..] + rest == t;
    if s == "" {
      assert t[1..] == rest;
    } else {
      var c, tail := s[0], Escaped(s[1..]) + "\"" + rest;
      assert Dumps(s[1..])[1..] + rest == tail && t == Unit(c) + tail;
      DumpsParses(s[1..], rest);
      if Plain(c) {
        PlainUnit(c);
        assert t[1..] == tail;
      } else {
        UnitParses(c, tail);
        assert t[1..] == Unit(c)[1..] + tail;
      }
    }
  }

  lemma PlainUnit(c: char)
    requires Plain(c)
    ensures Unit(c) == [c] == Utf8(c as int)
  {}

  /** Plain characters are written as they are. */
  lemma {:induction false} PlainDumps(s: string)
    requires forall k :: 0 <= k < |s| ==> Plain(s[k])
    ensures Escaped(s) == s && Dumps(s) == "\"" + s + "\""
  {
    if s != "" {
      PlainDumps(s[1..]);
      assert s == [s[0]] + s[1..];
    }
  }

  /** Seven characters have an escape of their own. */
  lemma ShortForms()
    ensures Unit('\"') == "\\\"" && Unit('\\') == "\\\\" && Unit('\n') == "\\n" && Unit('\r') == "\\r"
    ensures Unit('\t') == "\\t" && Unit(8 as char) == "\\b" && Unit(12 as char) == "\\f"
  {
    hide Hex4;
  }

  /** Other control characters and everything past the tilde get four lower-case
      hexadecimal digits, or twice four. */
  lemma LongForms(c: char)
    requires !Plain(c) && ShortEscape(c).None?
    ensures (c as int) < 0x10000 ==> Unit(c) == "\\u" + Hex4(c as int)
    ensures (c as int) >= 0x10000 ==>
      var n := c as int - 0x10000; Unit(c) == "\\u" + Hex4(0xD800 + n / 1024) + "\\u" + Hex4(0xDC00 + n % 1024)
    ensures Hex4(0x7F) == "007f" && Hex4(0xD83D) == "d83d"
  {
    FourDigits();
    hide Hex4;
  }

  lemma FourDigits()
    ensures Hex4(0x7F) == "007f" && Hex4(0xD83D) == "d83d"
  {}

  /** It holds nothing but printable ASCII. */
  lemma {:induction false} EscapedAscii(s: string)
    ensures forall k :: 0 <= k < |Escaped(s)| ==> ' ' <= Escaped(s)[k] <= '~'
  {
    hide Unit;
    if s != "" {
      UnitAscii(s[0]);
      EscapedAscii(s[1..]);
    }
  }

  lemma UnitAscii(c: char)
    ensures forall k :: 0 <= k < |Unit(c)| ==> ' ' <= Unit(c)[k] <= '~'
  {}
}
