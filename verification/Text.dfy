// Byte strings and decimal numerals shared by every component.

module Text {
  datatype Option<+T> = None | Some(value: T)

  /** One character stands for one byte. The program's strings are UTF-8, and
      its length prefixes count bytes, so `|s|` is the length the code writes. */
  type Bytes = string

  predicate IsDigit(c: char) { '0' <= c <= '9' }

  predicate AllDigits(s: string) { forall k :: 0 <= k < |s| ==> IsDigit(s[k]) }

  function DigitChar(d: nat): (c: char)
    requires d < 10
    ensures IsDigit(c) && DigitValue(c) == d
  {
    (48 + d) as char
  }

  function DigitValue(c: char): nat
    requires IsDigit(c)
  {
    c as int - 48
  }

  /** Decimal numeral without leading zeros, as `strconv.Itoa` writes it. */
  function Itoa(n: nat): (s: string)
    ensures |s| > 0 && AllDigits(s)
    ensures s[0] == '0' ==> n == 0 && s == "0"
  {
    if n < 10 then [DigitChar(n)] else Itoa(n / 10) + [DigitChar(n % 10)]
  }

  function ParseNat(s: string): nat
    requires |s| > 0 && AllDigits(s)
  {
    var last := DigitValue(s[|s| - 1]);
    if |s| == 1 then last else 10 * ParseNat(s[..|s| - 1]) + last
  }

  lemma {:induction false} ParseItoa(n: nat)
    ensures ParseNat(Itoa(n)) == n
  {
    if n >= 10 {
      var s := Itoa(n);
      assert s[..|s| - 1] == Itoa(n / 10);
      ParseItoa(n / 10);
    }
  }

  lemma ItoaInjective(m: nat, n: nat)
    requires Itoa(m) == Itoa(n)
    ensures m == n
  {
    ParseItoa(m);
    ParseItoa(n);
  }

  /** Length of the longest run of digits at the front of `s`. */
  function DigitRun(s: string): (k: nat)
    ensures k <= |s| && AllDigits(s[..k]) && (k < |s| ==> !IsDigit(s[k]))
  {
    if s == "" || !IsDigit(s[0]) then 0
    else
      var k := DigitRun(s[1..]);
      assert s[..k + 1] == [s[0]] + s[1..][..k];
      k + 1
  }

  lemma DigitRunOf(digits: string, rest: string)
    requires AllDigits(digits)
    requires rest == "" || !IsDigit(rest[0])
    ensures DigitRun(digits + rest) == |digits|
  {
    var s := digits + rest;
    assert forall j :: 0 <= j < |digits| ==> IsDigit(s[j]);
    assert rest != "" ==> s[|digits|] == rest[0];
    var k := DigitRun(s);
    assert forall j :: 0 <= j < k ==> s[j] == s[..k][j];
  }

  function IntText(n: int): string { if n < 0 then "-" + Itoa(-n) else Itoa(n) }

  /** `strconv.Atoi` on a signed decimal literal. */
  function Atoi(s: string): Option<int> {
    if s != "" && (s[0] == '-' || s[0] == '+') then
      if s[1..] != "" && AllDigits(s[1..])
      then var n: int := ParseNat(s[1..]); Some(if s[0] == '-' then -n else n)
      else None
    else if s != "" && AllDigits(s) then Some(ParseNat(s))
    else None
  }

  lemma AtoiIntText(n: int)
    ensures Atoi(IntText(n)) == Some(n)
  {
    hide Itoa, ParseNat;
    var m: nat := if n < 0 then -n else n;
    ParseItoa(m);
    assert IsDigit(Itoa(m)[0]);
    assert n < 0 ==> IntText(n)[1..] == Itoa(m);
  }

  predicate HasPrefix(s: string, p: string) { p <= s }

  /** `strings.Join`. */
  function Join(parts: seq<string>, sep: string): string {
    if parts == [] then ""
    else if |parts| == 1 then parts[0]
    else parts[0] + sep + Join(parts[1..], sep)
  }

  /** A character that separates nothing comes from one of the parts; only
      nothing, or one empty part, joins to the empty string. */
  lemma {:induction false} JoinHas(parts: seq<string>, sep: string, c: char)
    requires sep != "" && c !in sep
    ensures c in Join(parts, sep) <==> exists k :: 0 <= k < |parts| && c in parts[k]
    ensures Join(parts, sep) == "" <==> parts == [] || parts == [""]
  {
    if |parts| > 1 {
      var rest := parts[1..];
      JoinHas(rest, sep, c);
      var head, tail := parts[0] + sep, Join(rest, sep);
      assert Join(parts, sep) == head + tail;
      assert c in head <==> c in parts[0];
      assert forall k :: 1 <= k < |parts| ==> parts[k] == rest[k - 1];
      assert forall k :: 0 <= k < |rest| ==> rest[k] == parts[k + 1];
    } else if |parts| == 1 {
      assert parts == [parts[0]];
    }
  }

  /** Position of the first `c` in `s`, or `|s|`. */
  function IndexOf(s: string, c: char): (k: nat)
    ensures k <= |s| && c !in s[..k] && (k < |s| ==> s[k] == c)
  {
    if s == "" || s[0] == c then 0
    else
      var k := IndexOf(s[1..], c);
      assert s[..k + 1] == [s[0]] + s[1..][..k];
      k + 1
  }

  lemma IndexOfSplit(a: string, c: char, b: string)
    requires c !in a
    ensures IndexOf(a + [c] + b, c) == |a|
  {
    var s := a + [c] + b;
    assert s[|a|] == c;
    assert forall j :: 0 <= j < |a| ==> s[j] == a[j] && a[j] in a;
    var k := IndexOf(s, c);
    assert forall j :: 0 <= j < k ==> s[j] == s[..k][j] && s[..k][j] in s[..k];
  }

  lemma IndexOfAbsent(a: string, c: char)
    requires c !in a
    ensures IndexOf(a, c) == |a|
  {
    assert forall j :: 0 <= j < |a| ==> a[j] in a;
  }

  /** `strings.Split(s, "\n")`: the pieces between separators, never empty. */
  function Split(s: string, c: char): (pieces: seq<string>)
    ensures |pieces| > 0
    decreases |s|
  {
    var k := IndexOf(s, c);
    if k == |s| then [s] else [s[..k]] + Split(s[k + 1..], c)
  }

  lemma SplitFirst(a: string, c: char, b: string)
    requires c !in a
    ensures Split(a + [c] + b, c) == [a] + Split(b, c)
  {
    var s := a + [c] + b;
    IndexOfSplit(a, c, b);
    assert s[..|a|] == a && s[|a| + 1..] == b;
  }

  lemma {:induction false} SplitAppend(a: string, c: char, b: string)
    ensures Split(a + [c] + b, c) == Split(a, c) + Split(b, c)
    decreases |a|
  {
    hide Split, IndexOf;
    var k := IndexOf(a, c);
    if k == |a| {
      assert a[..k] == a;
      SplitFirst(a, c, b);
      SplitAbsent(a, c);
    } else {
      var first, rest := a[..k], a[k + 1..];
      assert a == first + [c] + rest;
      SplitAppend(rest, c, b);
      SplitFirst(first, c, rest);
      SplitFirst(first, c, rest + [c] + b);
      assert a + [c] + b == first + [c] + (rest + [c] + b);
      assert [first] + (Split(rest, c) + Split(b, c)) == [first] + Split(rest, c) + Split(b, c);
    }
  }

  /** Joining the pieces again gives the string back. */
  lemma {:induction false} JoinSplit(s: string, c: char)
    ensures Join(Split(s, c), [c]) == s
    decreases |s|
  {
    hide IndexOf;
    var k := IndexOf(s, c);
    if k < |s| {
      JoinSplit(s[k + 1..], c);
      var pieces := [s[..k]] + Split(s[k + 1..], c);
      assert pieces[1..] == Split(s[k + 1..], c);
      assert s == s[..k] + [c] + s[k + 1..];
    }
  }

  lemma {:induction false} JoinAppend(a: seq<string>, b: seq<string>, sep: string)
    requires a != [] && b != []
    ensures Join(a + b, sep) == Join(a, sep) + sep + Join(b, sep)
  {
    if |a| == 1 {
      assert (a + b)[1..] == b;
    } else {
      JoinAppend(a[1..], b, sep);
      assert (a + b)[1..] == a[1..] + b;
      var x, y, z := a[0] + sep, Join(a[1..], sep), sep + Join(b, sep);
      assert x + (y + z) == (x + y) + z;
      assert Join(a[1..], sep) + sep + Join(b, sep) == y + z;
    }
  }

  lemma SplitAbsent(a: string, c: char)
    requires c !in a
    ensures Split(a, c) == [a]
  {
    IndexOfAbsent(a, c);
  }
}

// SHA-256 in lowercase hexadecimal, as an unknown function. Nothing is assumed
// of it beyond the shape of its output.
module Hashing {
  import opened Text

  predicate IsHash(s: string) {
    |s| == 64 && forall k :: 0 <= k < 64 ==> '0' <= s[k] <= '9' || 'a' <= s[k] <= 'f'
  }

  type Hash = s: Bytes | IsHash(s) ghost witness seq(64, (i: int) => '0')

  type Digest = Bytes -> Hash

  /** Two different inputs with one digest. */
  ghost predicate Collision(h: Digest, a: Bytes, b: Bytes) { a != b && h(a) == h(b) }
}
