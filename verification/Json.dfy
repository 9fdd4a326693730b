// JSON as the feed, the reservation file and the verifier use it: a parser for
// the whole grammar of RFC 8259 and the printer that `json.Marshal` applies to
// a flat struct of strings and integers.

module Json {
  import opened Text

  /** Numbers keep their literal text, as Go's RawMessage does. */
  datatype Value =
    | Null
    | Bool(b: bool)
    | Num(literal: string)
    | Str(s: string)
    | Arr(items: seq<Value>)
    | Obj(members: seq<Member>)

  datatype Member = Member(key: string, value: Value)

  datatype Parsed<+T> = Fail | Ok(value: T, rest: string)

  // ---------------------------------------------------------------- strings

  predicate IsHex(c: char) { '0' <= c <= '9' || 'a' <= c <= 'f' || 'A' <= c <= 'F' }

  function HexDigit(d: nat): (c: char)
    requires d < 16
    ensures IsHex(c) && HexValue(c) == d
  {
    if d < 10 then (48 + d) as char else (87 + d) as char
  }

  function HexValue(c: char): (d: nat)
    requires IsHex(c)
    ensures d < 16
  {
    if c <= '9' then c as int - 48 else if c >= 'a' then c as int - 87 else c as int - 55
  }

  function Hex4(n: nat): (s: string)
    requires n < 0x10000
    ensures |s| == 4
  {
    [HexDigit(n / 4096), HexDigit(n / 256 % 16), HexDigit(n / 16 % 16), HexDigit(n % 16)]
  }

  /** The value of four hexadecimal digits. */
  function Unhex4(s: string): (r: Option<nat>)
    ensures r.Some? ==> r.value < 0x10000
  {
    if |s| == 4 && IsHex(s[0]) && IsHex(s[1]) && IsHex(s[2]) && IsHex(s[3])
    then Some(4096 * HexValue(s[0]) + 256 * HexValue(s[1]) + 16 * HexValue(s[2]) + HexValue(s[3]))
    else None
  }

  lemma UnhexHex4(n: nat)
    requires n < 0x10000
    ensures Unhex4(Hex4(n)) == Some(n)
  {
    var a := n / 16;
    var b := a / 16;
    assert n / 256 == b && n / 4096 == b / 16;
    assert n == 16 * a + n % 16 && a == 16 * b + a % 16 && b == 16 * (b / 16) + b % 16;
  }

  /** UTF-8 bytes of a code point. */
  function Utf8(cp: nat): string
    requires cp < 0x110000
  {
    if cp < 0x80 then [cp as char]
    else if cp < 0x800 then [(0xC0 + cp / 64) as char, (0x80 + cp % 64) as char]
    else if cp < 0x10000 then
      [(0xE0 + cp / 4096) as char, (0x80 + cp / 64 % 64) as char, (0x80 + cp % 64) as char]
    else
      [(0xF0 + cp / 262144) as char, (0x80 + cp / 4096 % 64) as char,
       (0x80 + cp / 64 % 64) as char, (0x80 + cp % 64) as char]
  }

  predicate IsSurrogate(cp: nat) { 0xD800 <= cp < 0xE000 }

  const REPLACEMENT: nat := 0xFFFD

  /** Bytes taken by the next unit `Escape` writes: the line separators U+2028
      and U+2029 are three UTF-8 bytes written as one escape. */
  function UnitLength(s: string): (k: nat)
    requires s != ""
    ensures k == 1 || k == 3 <= |s|
  {
    if |s| >= 3 && s[0] as int == 0xE2 && s[1] as int == 0x80 && (s[2] as int == 0xA8 || s[2] as int == 0xA9)
    then 3 else 1
  }

  function EscapeUnit(s: string): (e: string)
    requires s != ""
    ensures e != ""
  {
    var c := s[0];
    if UnitLength(s) == 3 then "\\u202" + [if s[2] as int == 0xA8 then '8' else '9']
    else if c == '\"' || c == '\\' then ['\\', c]
    else if c as int == 8 then "\\b"
    else if c as int == 12 then "\\f"
    else if c == '\n' then "\\n"
    else if c == '\r' then "\\r"
    else if c == '\t' then "\\t"
    else if c < ' ' || c == '<' || c == '>' || c == '&' then "\\u" + Hex4(c as int)
    else [c]
  }

  function Escape(s: string): string {
    if s == "" then "" else EscapeUnit(s) + Escape(s[UnitLength(s)..])
  }

  function Quote(s: string): string { "\"" + Escape(s) + "\"" }

  /** One escape sequence after its backslash. A lone surrogate decodes to
      U+FFFD and a surrogate pair to one code point. */
  function ParseEscape(s: string): (r: Parsed<string>)
    ensures r.Ok? ==> |r.rest| < |s|
  {
    if s == "" then Fail
    else match s[0]
      case '\"' => Ok("\"", s[1..])
      case '\\' => Ok("\\", s[1..])
      case '/' => Ok("/", s[1..])
      case 'b' => Ok([8 as char], s[1..])
      case 'f' => Ok([12 as char], s[1..])
      case 'n' => Ok("\n", s[1..])
      case 'r' => Ok("\r", s[1..])
      case 't' => Ok("\t", s[1..])
      case 'u' =>
        if |s| < 5 then Fail
        else (
          match Unhex4(s[1..5])
          case None => Fail
          case Some(cp) =>
            if !IsSurrogate(cp) then Ok(Utf8(cp), s[5..])
            else if cp < 0xDC00 && |s| >= 11 && s[5] == '\\' && s[6] == 'u'
                    && Unhex4(s[7..11]).Some? && 0xDC00 <= Unhex4(s[7..11]).value < 0xE000 then
              Ok(Utf8(0x10000 + 1024 * (cp - 0xD800) + (Unhex4(s[7..11]).value - 0xDC00)), s[11..])
            else Ok(Utf8(REPLACEMENT), s[5..]))
      case _ => Fail
  }

  /** The body of a string literal after its opening quote. */
  function ParseString(s: string): (r: Parsed<string>)
    ensures r.Ok? ==> |r.rest| < |s|
    decreases |s|
  {
    if s == "" then Fail
    else if s[0] == '\"' then Ok("", s[1..])
    else if s[0] == '\\' then (
      match ParseEscape(s[1..])
      case Fail => Fail
      case Ok(unit, s1) =>
        match ParseString(s1)
        case Fail => Fail
        case Ok(tail, rest) => Ok(unit + tail, rest))
    else if s[0] < ' ' then Fail
    else
      match ParseString(s[1..])
      case Fail => Fail
      case Ok(tail, rest) => Ok([s[0]] + tail, rest)
  }

  // ---------------------------------------------------------------- numbers

  function Fraction(s: string): (r: Option<nat>)
    ensures r.Some? ==> r.value <= |s|
  {
    if s != "" && s[0] == '.' then
      var d := DigitRun(s[1..]);
      if d == 0 then None else Some(1 + d)
    else Some(0)
  }

  function Exponent(s: string): (r: Option<nat>)
    ensures r.Some? ==> r.value <= |s|
  {
    if s != "" && (s[0] == 'e' || s[0] == 'E') then
      var sign := if |s| > 1 && (s[1] == '+' || s[1] == '-') then 1 else 0;
      var d := DigitRun(s[1 + sign..]);
      if d == 0 then None else Some(1 + sign + d)
    else Some(0)
  }

  /** Length of the number literal at the front of `s`. */
  function NumberLength(s: string): (r: Option<nat>)
    ensures r.Some? ==> 0 < r.value <= |s|
  {
    var sign := if s != "" && s[0] == '-' then 1 else 0;
    var run := DigitRun(s[sign..]);
    if run == 0 then None
    else
      var i := sign + (if s[sign] == '0' then 1 else run);
      match Fraction(s[i..])
      case None => None
      case Some(f) =>
        match Exponent(s[i + f..])
        case None => None
        case Some(e) => Some(i + f + e)
  }

  // ---------------------------------------------------------------- values

  predicate IsSpace(c: char) { c == ' ' || c == '\t' || c == '\n' || c == '\r' }

  function SkipSpace(s: string): (t: string)
    ensures |t| <= |s|
  {
    if s != "" && IsSpace(s[0]) then SkipSpace(s[1..]) else s
  }

  function ParseValue(s: string): (r: Parsed<Value>)
    ensures r.Ok? ==> |r.rest| < |s|
    decreases |s|, 0
  {
    if s == "" then Fail
    else if s[0] == '{' then (
      var t := SkipSpace(s[1..]);
      if t != "" && t[0] == '}' then Ok(Obj([]), t[1..])
      else match ParseMembers(t)
        case Fail => Fail
        case Ok(ms, rest) => Ok(Obj(ms), rest))
    else if s[0] == '[' then (
      var t := SkipSpace(s[1..]);
      if t != "" && t[0] == ']' then Ok(Arr([]), t[1..])
      else match ParseItems(t)
        case Fail => Fail
        case Ok(vs, rest) => Ok(Arr(vs), rest))
    else if s[0] == '\"' then (
      match ParseString(s[1..])
      case Fail => Fail
      case Ok(text, rest) => Ok(Str(text), rest))
    else if HasPrefix(s, "null") then Ok(Null, s[4..])
    else if HasPrefix(s, "true") then Ok(Bool(true), s[4..])
    else if HasPrefix(s, "false") then Ok(Bool(false), s[5..])
    else
      match NumberLength(s)
      case None => Fail
      case Some(k) => Ok(Num(s[..k]), s[k..])
  }

  function ParseItems(s: string): (r: Parsed<seq<Value>>)
    ensures r.Ok? ==> |r.rest| < |s|
    decreases |s|, 1
  {
    match ParseValue(s)
    case Fail => Fail
    case Ok(v, s1) =>
      var t := SkipSpace(s1);
      if t != "" && t[0] == ']' then Ok([v], t[1..])
      else if t != "" && t[0] == ',' then
        match ParseItems(SkipSpace(t[1..]))
        case Fail => Fail
        case Ok(vs, rest) => Ok([v] + vs, rest)
      else Fail
  }

  function ParseMembers(s: string): (r: Parsed<seq<Member>>)
    ensures r.Ok? ==> |r.rest| < |s|
    decreases |s|, 1
  {
    if s == "" || s[0] != '\"' then Fail
    else match ParseString(s[1..])
      case Fail => Fail
      case Ok(key, s1) =>
        var colon := SkipSpace(s1);
        if colon == "" || colon[0] != ':' then Fail
        else match ParseValue(SkipSpace(colon[1..]))
          case Fail => Fail
          case Ok(v, s2) =>
            var t := SkipSpace(s2);
            if t != "" && t[0] == '}' then Ok([Member(key, v)], t[1..])
            else if t != "" && t[0] == ',' then
              match ParseMembers(SkipSpace(t[1..]))
              case Fail => Fail
              case Ok(ms, rest) => Ok([Member(key, v)] + ms, rest)
            else Fail
  }

  /** `json.Unmarshal` up to the conversion into Go values: one value, with
      nothing but white space around it. */
  function Parse(s: string): Option<Value> {
    match ParseValue(SkipSpace(s))
    case Fail => None
    case Ok(v, rest) => if SkipSpace(rest) == "" then Some(v) else None
  }

  // ---------------------------------------------------------------- printing

  predicate IsNatural(l: string) { l != "" && AllDigits(l) && (l[0] == '0' ==> l == "0") }

  predicate IsInteger(l: string) { IsNatural(l) || (l != "" && l[0] == '-' && IsNatural(l[1..])) }

  /** Values a flat Go struct of strings and ints marshals to. */
  predicate IsField(v: Value) { v.Str? || (v.Num? && IsInteger(v.literal)) }

  predicate AreFields(ms: seq<Member>) { forall k :: 0 <= k < |ms| ==> IsField(ms[k].value) }

  function PrintField(v: Value): string
    requires IsField(v)
  {
    if v.Str? then Quote(v.s) else v.literal
  }

  function PrintMembers(ms: seq<Member>): string
    requires ms != [] && AreFields(ms)
  {
    Quote(ms[0].key) + ":" + PrintField(ms[0].value) +
    (if |ms| == 1 then "}" else "," + PrintMembers(ms[1..]))
  }

  /** A non-empty flat object, members in the given order. */
  function PrintObject(ms: seq<Member>): string
    requires ms != [] && AreFields(ms)
  {
    "{" + PrintMembers(ms)
  }
}
