/** JSON values, their canonical text and the strict parser: one model shared
    by the wire protocol and the bracket scanner (RFC 8259). */
module Json {
  import opened Common

  /** Objects list their members in ascending key order, so that equal
      dictionaries are equal values. A float is the token that prints it. */
  datatype Json =
    | Null
    | Bool(b: bool)
    | Int(i: int)
    | Float(token: string)
    | Str(s: string)
    | Arr(items: seq<Json>)
    | Obj(fields: Fields)

  datatype Field = Field(key: string, value: Json)

  type Fields = seq<Field>

  /** Lexicographic order by code point. */
  predicate Less(a: string, b: string) {
    b != "" && (a == "" || a[0] < b[0] || (a[0] == b[0] && Less(a[1..], b[1..])))
  }

  ghost predicate Sorted(fields: Fields) {
    forall i, j :: 0 <= i < j < |fields| ==> Less(fields[i].key, fields[j].key)
  }

  ghost predicate Canonical(v: Json) {
    match v
    case Float(t) => IsFloatToken(t)
    case Arr(items) => forall k :: 0 <= k < |items| ==> Canonical(items[k])
    case Obj(fields) => Sorted(fields) && forall k :: 0 <= k < |fields| ==> Canonical(fields[k].value)
    case _ => true
  }

  // ------------------------------------------------------------------
  // Printing: sorted keys, no blanks, only the escapes JSON demands
  // ------------------------------------------------------------------

  function Digit(n: nat): char
    requires n < 10
  {
    "0123456789"[n]
  }

  function NatText(n: nat): string {
    if n < 10 then [Digit(n)] else NatText(n / 10) + [Digit(n % 10)]
  }

  function IntText(i: int): string {
    if i < 0 then "-" + NatText(-i) else NatText(i)
  }

  function HexDigit(n: nat): char
    requires n < 16
  {
    "0123456789abcdef"[n]
  }

  function Escaped(c: char): string {
    if c == '"' then "\\\""
    else if c == '\\' then "\\\\"
    else if c == '\n' then "\\n"
    else if c == '\r' then "\\r"
    else if c == '\t' then "\\t"
    else if c as int == 8 then "\\b"
    else if c as int == 12 then "\\f"
    else if c as int < 32 then "\\u00" + [HexDigit(c as int / 16), HexDigit(c as int % 16)]
    else [c]
  }

  /** The characters between the quotes, and the closing quote. */
  function StringTail(s: string): string {
    if s == "" then "\"" else Escaped(s[0]) + StringTail(s[1..])
  }

  function Print(v: Json): string {
    match v
    case Null => "null"
    case Bool(b) => if b then "true" else "false"
    case Int(i) => IntText(i)
    case Float(t) => t
    case Str(s) => "\"" + StringTail(s)
    case Arr(items) => "[" + ItemsTail(items)
    case Obj(fields) => "{" + FieldsTail(fields)
  }

  /** The elements and the closing bracket. */
  function ItemsTail(items: seq<Json>): string
    decreases items, 0
  {
    if items == [] then "]" else Print(items[0]) + MoreItems(items[1..])
  }

  function MoreItems(items: seq<Json>): string
    decreases items, 1
  {
    if items == [] then "]" else "," + ItemsTail(items)
  }

  function FieldText(f: Field): string {
    "\"" + (StringTail(f.key) + (":" + Print(f.value)))
  }

  function FieldsTail(fields: Fields): string
    decreases fields, 0
  {
    if fields == [] then "}" else FieldText(fields[0]) + MoreFields(fields[1..])
  }

  function MoreFields(fields: Fields): string
    decreases fields, 1
  {
    if fields == [] then "}" else "," + FieldsTail(fields)
  }

  // ------------------------------------------------------------------
  // Parsing: each parser returns what it read and the text after it
  // ------------------------------------------------------------------

  predicate IsBlank(c: char) {
    c == ' ' || c == '\t' || c == '\n' || c == '\r'
  }

  function SkipBlanks(s: string): (r: string)
    ensures |r| <= |s|
  {
    if s != "" && IsBlank(s[0]) then SkipBlanks(s[1..]) else s
  }

  predicate IsDigit(c: char) {
    '0' <= c <= '9'
  }

  function DigitValue(c: char): nat
    requires IsDigit(c)
  {
    c as int - '0' as int
  }

  predicate IsHex(c: char) {
    IsDigit(c) || 'a' <= c <= 'f' || 'A' <= c <= 'F'
  }

  function HexValue(c: char): (n: nat)
    requires IsHex(c)
    ensures n < 16
  {
    if IsDigit(c) then c as int - '0' as int
    else if 'a' <= c then c as int - 'a' as int + 10
    else c as int - 'A' as int + 10
  }

  function Hex4(s: string): (r: Option<nat>)
    ensures r.Some? ==> |s| >= 4 && r.value < 0x10000
  {
    if |s| >= 4 && IsHex(s[0]) && IsHex(s[1]) && IsHex(s[2]) && IsHex(s[3]) then
      Some(4096 * HexValue(s[0]) + 256 * HexValue(s[1]) + 16 * HexValue(s[2]) + HexValue(s[3]))
    else None
  }

  /** Reads an escape; s starts after the backslash. A surrogate pair makes one
      character; a surrogate on its own is not a character of this model. */
  function Unescape(s: string): (r: Option<(char, string)>)
    ensures r.Some? ==> |r.value.1| < |s|
  {
    if s == "" then None
    else
      match s[0]
      case '"' => Some(('"', s[1..]))
      case '\\' => Some(('\\', s[1..]))
      case '/' => Some(('/', s[1..]))
      case 'b' => Some((8 as char, s[1..]))
      case 'f' => Some((12 as char, s[1..]))
      case 'n' => Some(('\n', s[1..]))
      case 'r' => Some(('\r', s[1..]))
      case 't' => Some(('\t', s[1..]))
      case 'u' => UnescapeHex(s[1..])
      case _ => None
  }

  function UnescapeHex(s: string): (r: Option<(char, string)>)
    ensures r.Some? ==> |r.value.1| < |s|
  {
    match Hex4(s)
    case None => None
    case Some(n) =>
      if n < 0xD800 || 0xE000 <= n then Some((n as char, s[4..]))
      else if n < 0xDC00 && |s| >= 10 && s[4] == '\\' && s[5] == 'u' && Hex4(s[6..]).Some?
              && 0xDC00 <= Hex4(s[6..]).value < 0xE000 then
        Some(((0x10000 + (n - 0xD800) * 0x400 + (Hex4(s[6..]).value - 0xDC00)) as char, s[10..]))
      else None
  }

  /** Reads a string; s starts after the opening quote. */
  function ParseString(s: string): (r: Option<(string, string)>)
    ensures r.Some? ==> |r.value.1| < |s|
    decreases |s|
  {
    if s == "" || s[0] as int < 32 then None
    else if s[0] == '"' then Some(("", s[1..]))
    else if s[0] == '\\' then
      match Unescape(s[1..])
      case None => None
      case Some((c, rest)) =>
        match ParseString(rest) {
          case None => None
          case Some((t, end)) => Some(([c] + t, end))
        }
    else
      match ParseString(s[1..])
      case None => None
      case Some((t, end)) => Some(([s[0]] + t, end))
  }

  /** How many digits the text starts with. */
  function DigitsLen(s: string): (n: nat)
    ensures n <= |s| && forall k :: 0 <= k < n ==> IsDigit(s[k])
  {
    if s != "" && IsDigit(s[0]) then 1 + DigitsLen(s[1..]) else 0
  }

  predicate IsNumberChar(c: char) {
    IsDigit(c) || c == '-' || c == '+' || c == '.' || c == 'e' || c == 'E'
  }

  /** The length of the integer part, 0 if there is none. */
  function IntLen(s: string): (n: nat)
    ensures n <= |s|
    ensures n > 0 ==> (s[0] == '-' && n > 1) || IsDigit(s[0])
    ensures forall k :: 0 <= k < n ==> IsNumberChar(s[k])
  {
    var sign := if s != "" && s[0] == '-' then 1 else 0;
    var digits := DigitsLen(s[sign..]);
    if digits == 0 then 0
    else if s[sign] == '0' then sign + 1
    else sign + digits
  }

  function FracLen(s: string): (n: nat)
    ensures n <= |s|
    ensures forall k :: 0 <= k < n ==> IsNumberChar(s[k])
  {
    if s != "" && s[0] == '.' && DigitsLen(s[1..]) > 0 then 1 + DigitsLen(s[1..]) else 0
  }

  function ExpLen(s: string): (n: nat)
    ensures n <= |s|
    ensures forall k :: 0 <= k < n ==> IsNumberChar(s[k])
  {
    if s != "" && (s[0] == 'e' || s[0] == 'E') then
      var sign := if |s| > 1 && (s[1] == '+' || s[1] == '-') then 1 else 0;
      if DigitsLen(s[1 + sign..]) > 0 then 1 + sign + DigitsLen(s[1 + sign..]) else 0
    else 0
  }

  function DigitsValue(s: string): nat
    requires forall k :: 0 <= k < |s| ==> IsDigit(s[k])
  {
    if s == "" then 0 else 10 * DigitsValue(s[..|s| - 1]) + DigitValue(s[|s| - 1])
  }

  function ParseNumber(s: string): (r: Option<(Json, string)>)
    ensures r.Some? ==> |r.value.1| < |s|
  {
    var n := IntLen(s);
    if n == 0 then None
    else
      var f := FracLen(s[n..]);
      var e := ExpLen(s[n + f..]);
      if f == 0 && e == 0 then
        Some((Int(if s[0] == '-' then 0 - DigitsValue(s[1..n]) else DigitsValue(s[..n])), s[n..]))
      else Some((Float(s[..n + f + e]), s[n + f + e..]))
  }

  predicate IsFloatToken(t: string) {
    ParseNumber(t) == Some((Float(t), ""))
  }

  /** Puts a member in its place; a repeated key is refused. */
  function Insert(fields: Fields, key: string, v: Json): Option<Fields> {
    if fields == [] || Less(key, fields[0].key) then Some([Field(key, v)] + fields)
    else if fields[0].key == key then None
    else
      match Insert(fields[1..], key, v)
      case None => None
      case Some(rest) => Some([fields[0]] + rest)
  }

  function ParseValue(s: string): (r: Option<(Json, string)>)
    ensures r.Some? ==> |r.value.1| < |s|
    decreases |s|, 0
  {
    if s == "" then None
    else if s[0] == '"' then
      match ParseString(s[1..])
      case None => None
      case Some((t, rest)) => Some((Str(t), rest))
    else if s[0] == '[' then
      var t := SkipBlanks(s[1..]);
      if t != "" && t[0] == ']' then Some((Arr([]), t[1..])) else ParseItems(t, [])
    else if s[0] == '{' then
      var t := SkipBlanks(s[1..]);
      if t != "" && t[0] == '}' then Some((Obj([]), t[1..])) else ParseFields(t, [])
    else if "null" <= s then Some((Null, s[4..]))
    else if "true" <= s then Some((Bool(true), s[4..]))
    else if "false" <= s then Some((Bool(false), s[5..]))
    else ParseNumber(s)
  }

  function ParseItems(s: string, done: seq<Json>): (r: Option<(Json, string)>)
    ensures r.Some? ==> |r.value.1| < |s|
    decreases |s|, 1
  {
    match ParseValue(s)
    case None => None
    case Some((v, rest)) =>
      var t := SkipBlanks(rest);
      if t == "" then None
      else if t[0] == ']' then Some((Arr(done + [v]), t[1..]))
      else if t[0] == ',' then ParseItems(SkipBlanks(t[1..]), done + [v])
      else None
  }

  function ParseFields(s: string, done: Fields): (r: Option<(Json, string)>)
    ensures r.Some? ==> |r.value.1| < |s|
    decreases |s|, 1
  {
    match ParseField(s)
    case None => None
    case Some((key, v, rest)) =>
      match Insert(done, key, v) {
        case None => None
        case Some(fields) =>
          var t := SkipBlanks(rest);
          if t == "" then None
          else if t[0] == '}' then Some((Obj(fields), t[1..]))
          else if t[0] == ',' then ParseFields(SkipBlanks(t[1..]), fields)
          else None
      }
  }

  function ParseField(s: string): (r: Option<(string, Json, string)>)
    ensures r.Some? ==> |r.value.2| < |s|
    decreases |s|, 0
  {
    if s == "" || s[0] != '"' then None
    else
      match ParseString(s[1..])
      case None => None
      case Some((key, rest)) =>
        var t := SkipBlanks(rest);
        if t == "" || t[0] != ':' then None
        else
          match ParseValue(SkipBlanks(t[1..])) {
            case None => None
            case Some((v, end)) => Some((key, v, end))
          }
  }

  /** One value with nothing but blanks around it. */
  function ParseText(s: string): Option<Json> {
    match ParseValue(SkipBlanks(s))
    case None => None
    case Some((v, rest)) => if SkipBlanks(rest) == "" then Some(v) else None
  }
}
