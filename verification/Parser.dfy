/** Reading JSON text, as `serde_json::from_str` does, for documents whose numbers are integers. */
module Parser {
  import opened Prelude
  import opened Json
  import opened Decimal
  import opened Canonical

  /** A parsed prefix and the text after it. */
  datatype Parsed<+T> = Fail | Got(value: T, rest: string)

  predicate IsJsonSpace(c: char) {
    c == ' ' || c == '\n' || c == '\t' || c == '\r'
  }

  function SkipSpace(s: string): (r: string)
    ensures |r| <= |s|
    ensures r != "" ==> !IsJsonSpace(r[0])
  {
    if s != "" && IsJsonSpace(s[0]) then SkipSpace(s[1..]) else s
  }

  // ---- Strings ----

  function HexValue(c: char): Option<nat> {
    if '0' <= c <= '9' then Some(c as int - '0' as int)
    else if 'a' <= c <= 'f' then Some(c as int - 'a' as int + 10)
    else if 'A' <= c <= 'F' then Some(c as int - 'A' as int + 10)
    else None
  }

  /** The number written by four hexadecimal digits at the front of `s`. */
  function Hex4(s: string): (r: Option<nat>)
    ensures r.Some? ==> |s| >= 4
  {
    if |s| < 4 then None else
      match (HexValue(s[0]), HexValue(s[1]), HexValue(s[2]), HexValue(s[3]))
      case (Some(a), Some(b), Some(c), Some(d)) => Some(a * 4096 + b * 256 + c * 16 + d)
      case _ => None
  }

  /** The character of a `\u` escape, whose hexadecimal digits `s` begins with. */
  function ParseUnicode(s: string): (r: Parsed<char>)
    ensures r.Got? ==> |r.rest| < |s|
  {
    match Hex4(s)
    case None => Fail
    case Some(n) =>
      if n < 0xD800 || 0xE000 <= n < 0x1_0000 then Got(n as char, s[4..])
      else if n < 0xDC00 && |s| >= 6 && s[4] == '\\' && s[5] == 'u' then
        match Hex4(s[6..])
        case None => Fail
        case Some(low) =>
          if 0xDC00 <= low < 0xE000
          then Got((0x1_0000 + (n - 0xD800) * 0x400 + (low - 0xDC00)) as char, s[10..])
          else Fail
      else Fail
  }

  /** One possibly escaped character of a string literal. */
  function ParseChar(s: string): (r: Parsed<char>)
    requires s != ""
    ensures r.Got? ==> |r.rest| < |s|
  {
    if s[0] == '\\' then
      if |s| == 1 then Fail else
        var t := s[2..];
        match s[1]
        case '\"' => Got('\"', t)
        case '\\' => Got('\\', t)
        case '/' => Got('/', t)
        case 'b' => Got('\U{0008}', t)
        case 'f' => Got('\U{000C}', t)
        case 'n' => Got('\U{000A}', t)
        case 'r' => Got('\U{000D}', t)
        case 't' => Got('\U{0009}', t)
        case 'u' => ParseUnicode(t)
        case _ => Fail
    else if s[0] < ' ' then Fail
    else Got(s[0], s[1..])
  }

  /** The characters up to the closing quote. */
  function ParseString(s: string): (r: Parsed<string>)
    ensures r.Got? ==> |r.rest| < |s|
    decreases |s|
  {
    if s == "" then Fail
    else if s[0] == '\"' then Got("", s[1..])
    else match ParseChar(s)
      case Fail => Fail
      case Got(c, t) =>
        match ParseString(t)
        case Fail => Fail
        case Got(text, rest) => Got([c] + text, rest)
  }

  // ---- Numbers ----

  /** An integer literal. A fraction, an exponent, a negative zero or an integer outside
      `i64` and `u64` would make `serde_json` read a floating-point number. */
  function ParseNumber(s: string): (r: Parsed<JsonInt>)
    ensures r.Got? ==> |r.rest| < |s|
  {
    var negative := s != "" && s[0] == '-';
    var t := if negative then s[1..] else s;
    var n := DigitRun(t);
    if n == 0 || (n > 1 && t[0] == '0') then Fail
    else if n < |t| && t[n] in ['.', 'e', 'E'] then Fail
    else
      var magnitude: int := ValueOf(t[..n]);
      if negative then
        if 0 < magnitude <= 0x8000_0000_0000_0000 then
          var value: JsonInt := -magnitude;
          Got(value, t[n..])
        else Fail
      else if magnitude <= U64_MAX then Got(magnitude, t[n..])
      else Fail
  }

  // ---- Documents ----

  /** A value, with at most `depth` arrays and objects open around its leaves. */
  function ParseValue(s: string, depth: nat): (r: Parsed<Value>)
    ensures r.Got? ==> |r.rest| < |s|
    decreases |s|, 1
  {
    var t := SkipSpace(s);
    if t == "" then Fail
    else if "null" <= t then Got(Null, t[4..])
    else if "true" <= t then Got(Bool(true), t[4..])
    else if "false" <= t then Got(Bool(false), t[5..])
    else if t[0] == '\"' then
      match ParseString(t[1..])
      case Fail => Fail
      case Got(text, rest) => Got(String(text), rest)
    else if t[0] == '[' then
      if depth == 0 then Fail else
        var u := SkipSpace(t[1..]);
        if u != "" && u[0] == ']' then Got(Array([]), u[1..]) else
          match ParseItems(u, depth - 1)
          case Fail => Fail
          case Got(items, rest) => Got(Array(items), rest)
    else if t[0] == '{' then
      if depth == 0 then Fail else
        var u := SkipSpace(t[1..]);
        if u != "" && u[0] == '}' then Got(Object(map[]), u[1..]) else
          match ParseMembers(u, depth - 1, map[])
          case Fail => Fail
          case Got(fields, rest) => Got(Object(fields), rest)
    else
      match ParseNumber(t)
      case Fail => Fail
      case Got(n, rest) => Got(Number(n), rest)
  }

  /** One or more values separated by commas, and the closing bracket. */
  function ParseItems(s: string, depth: nat): (r: Parsed<seq<Value>>)
    ensures r.Got? ==> |r.rest| < |s|
    decreases |s|, 2
  {
    match ParseValue(s, depth)
    case Fail => Fail
    case Got(item, t) =>
      var u := SkipSpace(t);
      if u != "" && u[0] == ']' then Got([item], u[1..])
      else if u != "" && u[0] == ',' then
        match ParseItems(u[1..], depth)
        case Fail => Fail
        case Got(items, rest) => Got([item] + items, rest)
      else Fail
  }

  /** One or more members separated by commas, and the closing brace. A repeated key keeps
      its last value, as inserting into the map does. */
  function ParseMembers(s: string, depth: nat, sofar: map<string, Value>): (r: Parsed<map<string, Value>>)
    ensures r.Got? ==> |r.rest| < |s|
    decreases |s|, 2
  {
    match ParseMember(s, depth)
    case Fail => Fail
    case Got((key, item), t) =>
      var u := SkipSpace(t);
      if u != "" && u[0] == '}' then Got(sofar[key := item], u[1..])
      else if u != "" && u[0] == ',' then ParseMembers(u[1..], depth, sofar[key := item])
      else Fail
  }

  function ParseMember(s: string, depth: nat): (r: Parsed<(string, Value)>)
    ensures r.Got? ==> |r.rest| < |s|
    decreases |s|, 1
  {
    var t := SkipSpace(s);
    if t == "" || t[0] != '\"' then Fail
    else match ParseString(t[1..])
      case Fail => Fail
      case Got(key, u) =>
        var w := SkipSpace(u);
        if w == "" || w[0] != ':' then Fail
        else match ParseValue(w[1..], depth)
          case Fail => Fail
          case Got(item, rest) => Got((key, item), rest)
  }

  /** `serde_json` gives up when a 128th array or object is opened inside 127 others. */
  const MAX_NESTING := 127

  /** `serde_json::from_str::<Value>`. */
  function Parse(text: string): Option<Value> {
    match ParseValue(text, MAX_NESTING)
    case Fail => None
    case Got(v, rest) => if SkipSpace(rest) == "" then Some(v) else None
  }

  // ---- Compact text, with the members of objects in any order ----

  /** The syntax tree of a compact document text. */
  datatype Doc =
    | DocNull
    | DocBool(flag: bool)
    | DocNumber(number: JsonInt)
    | DocString(text: string)
    | DocArray(items: seq<Doc>)
    | DocObject(members: seq<(string, Doc)>)

  function Print(doc: Doc): string
    decreases doc, 1
  {
    match doc
    case DocNull => "null"
    case DocBool(flag) => if flag then "true" else "false"
    case DocNumber(n) => NumberText(n)
    case DocString(text) => Quote(text)
    case DocArray(items) => "[" + PrintItems(items) + "]"
    case DocObject(members) => "{" + PrintMembers(members) + "}"
  }

  function PrintItems(items: seq<Doc>): string
    decreases items, 0
  {
    if items == [] then ""
    else if |items| == 1 then Print(items[0])
    else Print(items[0]) + "," + PrintItems(items[1..])
  }

  function PrintMember(member: (string, Doc)): string
    decreases member, 0
  {
    Quote(member.0) + ":" + Print(member.1)
  }

  function PrintMembers(members: seq<(string, Doc)>): string
    decreases members, 0
  {
    if members == [] then ""
    else if |members| == 1 then PrintMember(members[0])
    else PrintMember(members[0]) + "," + PrintMembers(members[1..])
  }

  function Meaning(doc: Doc): Value
    decreases doc, 1
  {
    match doc
    case DocNull => Null
    case DocBool(flag) => Bool(flag)
    case DocNumber(n) => Number(n)
    case DocString(text) => String(text)
    case DocArray(items) => Array(ItemMeanings(items))
    case DocObject(members) => Object(MemberMeanings(members, map[]))
  }

  function ItemMeanings(items: seq<Doc>): seq<Value>
    decreases items, 0
  {
    if items == [] then [] else [Meaning(items[0])] + ItemMeanings(items[1..])
  }

  function MemberMeanings(members: seq<(string, Doc)>, sofar: map<string, Value>): map<string, Value>
    decreases members, 0
  {
    if members == [] then sofar
    else MemberMeanings(members[1..], sofar[members[0].0 := MemberMeaning(members[0])])
  }

  function MemberMeaning(member: (string, Doc)): Value
    decreases member, 0
  {
    Meaning(member.1)
  }

  /** How many arrays and objects are open around the deepest leaf. */
  function Nesting(doc: Doc): nat
    decreases doc, 1
  {
    match doc
    case DocArray(items) => 1 + ItemsNesting(items)
    case DocObject(members) => 1 + MembersNesting(members)
    case _ => 0
  }

  function Max(a: nat, b: nat): nat { if a >= b then a else b }

  function ItemsNesting(items: seq<Doc>): nat
    decreases items, 0
  {
    if items == [] then 0 else Max(Nesting(items[0]), ItemsNesting(items[1..]))
  }

  function MembersNesting(members: seq<(string, Doc)>): nat
    decreases members, 0
  {
    if members == [] then 0 else Max(MemberNesting(members[0]), MembersNesting(members[1..]))
  }

  function MemberNesting(member: (string, Doc)): nat
    decreases member, 0
  {
    Nesting(member.1)
  }
}
