/**
 Canonical JSON and the strict parser of the ledger (src/ledger.rs, web/src/ledger.ts).
 Texts are sequences of Unicode scalar values; sizes are measured in UTF-8 bytes.
 */
module JsonText {
  import opened Common
  import opened Text
  import opened Json

  const MAX_BYTES: nat := 1_048_576
  const MAX_DEPTH: nat := 32
  const MAX_INTEGER: int := 9_007_199_254_740_991

  // ---------- printing ----------

  function HexDigit(d: nat): char
    requires d < 16
  {
    if d < 10 then Digit(d) else (87 + d) as char
  }

  function EscapeChar(c: char): string {
    if c == '"' then "\\\""
    else if c == '\\' then "\\\\"
    else if c as int == 8 then "\\b"
    else if c as int == 9 then "\\t"
    else if c as int == 10 then "\\n"
    else if c as int == 12 then "\\f"
    else if c as int == 13 then "\\r"
    else if c as int < 32 then "\\u00" + [HexDigit(c as int / 16), HexDigit(c as int % 16)]
    else [c]
  }

  function Escape(s: string): string {
    if s == "" then "" else EscapeChar(s[0]) + Escape(s[1..])
  }

  function Quote(s: string): string {
    "\"" + Escape(s) + "\""
  }

  function PrintInt(n: int): string {
    if n < 0 then "-" + Decimal(-n) else Decimal(n)
  }

  /** No whitespace, object members in byte order of their keys. */
  ghost function Print(v: Json): string
    decreases v, 1
  {
    match v
    case Null => "null"
    case Bool(b) => if b then "true" else "false"
    case Int(n) => PrintInt(n)
    case Float(r) => ""
    case Str(s) => Quote(s)
    case Arr(items) => "[" + PrintItems(items) + "]"
    case Obj(fields) => "{" + PrintFields(v, SortedKeys(fields.Keys)) + "}"
  }

  ghost function PrintItems(items: seq<Json>): string
    decreases items, 0
  {
    if items == [] then ""
    else if |items| == 1 then Print(items[0])
    else Print(items[0]) + "," + PrintItems(items[1..])
  }

  ghost function PrintFields(v: Json, keys: seq<string>): string
    requires v.Obj? && Elements(keys) <= v.fields.Keys
    decreases v, 0, |keys|
  {
    if keys == [] then ""
    else
      assert keys[0] in Elements(keys);
      assert forall k :: k in keys[1..] ==> k in Elements(keys);
      var member := Quote(keys[0]) + ":" + Print(v.fields[keys[0]]);
      if |keys| == 1 then member else member + "," + PrintFields(v, keys[1..])
  }

  /** What `normalize` accepts: bounded nesting, safe integers, no other numbers. */
  predicate Fits(v: Json, depth: nat)
    decreases v
  {
    depth <= MAX_DEPTH &&
    match v
    case Int(n) => -MAX_INTEGER <= n <= MAX_INTEGER
    case Float(r) => false
    case Arr(items) => forall i :: 0 <= i < |items| ==> Fits(items[i], depth + 1)
    case Obj(fields) => forall k :: k in fields ==> Fits(fields[k], depth + 1)
    case _ => true
  }

  /** `canonical_json`. */
  ghost function Canonical(v: Json): Option<string> {
    if Fits(v, 0) && |Utf8(Print(v))| <= MAX_BYTES then Some(Print(v)) else None
  }

  // ---------- scanning ----------

  predicate IsSpace(c: char) {
    c == ' ' || c == '\t' || c == '\r' || c == '\n'
  }

  function SkipSpace(s: string): (rest: string)
    ensures |rest| <= |s|
  {
    if s != "" && IsSpace(s[0]) then SkipSpace(s[1..]) else s
  }

  predicate Starts(s: string, c: char) {
    s != "" && s[0] == c
  }

  /** After an opening quote: the raw text up to the closing quote, and what follows it. */
  function ScanString(s: string): (r: Option<(string, string)>)
    ensures r.Some? ==> |r.value.1| < |s|
    decreases |s|
  {
    if s == "" then None
    else if s[0] == '"' then Some(("", s[1..]))
    else
      var n := if s[0] == '\\' then 2 else 1;
      if |s| < n then None
      else
        match ScanString(s[n..])
        case None => None
        case Some((raw, rest)) => Some((s[..n] + raw, rest))
  }

  function HexValue(c: char): Option<nat> {
    if '0' <= c <= '9' then Some(c as int - 48)
    else if 'a' <= c <= 'f' then Some(c as int - 87)
    else if 'A' <= c <= 'F' then Some(c as int - 55)
    else None
  }

  function Hex4(s: string): (n: Option<nat>)
    ensures n.Some? ==> n.value < 0x10000
  {
    if |s| < 4 then None
    else
      match (HexValue(s[0]), HexValue(s[1]), HexValue(s[2]), HexValue(s[3]))
      case (Some(a), Some(b), Some(c), Some(d)) =>
        if a < 16 && b < 16 && c < 16 && d < 16 then Some(((a * 16 + b) * 16 + c) * 16 + d) else None
      case _ => None
  }

  function Simple(c: char): Option<char> {
    match c
    case '"' => Some('"')
    case '\\' => Some('\\')
    case '/' => Some('/')
    case 'b' => Some(8 as char)
    case 'f' => Some(12 as char)
    case 'n' => Some('\n')
    case 'r' => Some('\r')
    case 't' => Some('\t')
    case _ => None
  }

  /** The first character a raw string text stands for, and how much text it takes. */
  function FirstChar(s: string): (r: Option<(char, nat)>)
    requires s != ""
    ensures r.Some? ==> 0 < r.value.1 <= |s|
  {
    if s[0] != '\\' then
      if s[0] == '"' || s[0] < ' ' then None else Some((s[0], 1))
    else if |s| < 2 then None
    else if s[1] == 'u' then
      match Hex4(s[2..])
      case None => None
      case Some(n) =>
        if n < 0xD800 || 0xE000 <= n then Some((n as char, 6))
        else if n < 0xDC00 && |s| >= 12 && s[6] == '\\' && s[7] == 'u' then
          match Hex4(s[8..])
          case Some(m) =>
            if 0xDC00 <= m < 0xE000 then Some(((0x10000 + (n - 0xD800) * 0x400 + (m - 0xDC00)) as char, 12)) else None
          case None => None
        else None
    else
      match Simple(s[1])
      case Some(c) => Some((c, 2))
      case None => None
  }

  /** The string a raw text between quotes stands for; absent for a malformed one. */
  function Unescape(raw: string): Option<string>
    decreases |raw|
  {
    if raw == "" then Some("")
    else
      match FirstChar(raw)
      case None => None
      case Some((c, n)) =>
        match Unescape(raw[n..])
        case None => None
        case Some(rest) => Some([c] + rest)
  }

  function TakeDigits(s: string): (n: nat)
    ensures n <= |s| && forall i :: 0 <= i < n ==> IsDigit(s[i])
    ensures n < |s| ==> !IsDigit(s[n])
  {
    if s == "" || !IsDigit(s[0]) then 0 else 1 + TakeDigits(s[1..])
  }

  function ParseDigits(s: string): (r: Option<(nat, string)>)
    ensures r.Some? ==> |r.value.1| < |s|
  {
    if s == "" || !IsDigit(s[0]) then None
    else if s[0] == '0' then Some((0, s[1..]))
    else Some((Numeral(s[..TakeDigits(s)]), s[TakeDigits(s)..]))
  }

  /** An integer; a negative zero is refused. */
  function ParseNumber(s: string): (r: Option<(Json, string)>)
    ensures r.Some? ==> |r.value.1| < |s|
  {
    if Starts(s, '-') then
      match ParseDigits(s[1..])
      case Some((n, rest)) => if n == 0 then None else Some((Int(-(n as int)), rest))
      case None => None
    else
      match ParseDigits(s)
      case Some((n, rest)) => Some((Int(n), rest))
      case None => None
  }

  function ParseToken(s: string): (r: Option<(Json, string)>)
    ensures r.Some? ==> |r.value.1| < |s|
  {
    if "null" <= s then Some((Null, s[4..]))
    else if "true" <= s then Some((Bool(true), s[4..]))
    else if "false" <= s then Some((Bool(false), s[5..]))
    else ParseNumber(s)
  }

  // ---------- parsing ----------

  type Parsed = Option<(Json, string)>

  function ParseString(s: string): (r: Option<(string, string)>)
    ensures r.Some? ==> |r.value.1| < |s|
  {
    if !Starts(s, '"') then None
    else
      match ScanString(s[1..])
      case None => None
      case Some((raw, rest)) =>
        match Unescape(raw)
        case None => None
        case Some(text) => Some((text, rest))
  }

  /** One value, with the text that follows it. */
  function ParseValue(s: string, depth: nat): (r: Parsed)
    ensures r.Some? ==> |r.value.1| < |s|
    decreases |s|, 0
  {
    if depth > MAX_DEPTH then None
    else
      var t := SkipSpace(s);
      if Starts(t, '"') then
        match ParseString(t)
        case None => None
        case Some((text, rest)) => Some((Str(text), rest))
      else if Starts(t, '[') then
        var u := SkipSpace(t[1..]);
        if Starts(u, ']') then Some((Arr([]), u[1..])) else ParseItems(u, depth, [])
      else if Starts(t, '{') then
        var u := SkipSpace(t[1..]);
        if Starts(u, '}') then Some((Obj(map[]), u[1..])) else ParseMembers(u, depth, map[])
      else ParseToken(t)
  }

  /** The rest of an array after its opening bracket or a comma. */
  function ParseItems(s: string, depth: nat, items: seq<Json>): (r: Parsed)
    ensures r.Some? ==> |r.value.1| < |s|
    decreases |s|, 1
  {
    match ParseValue(s, depth + 1)
    case None => None
    case Some((v, rest)) =>
      var t := SkipSpace(rest);
      if Starts(t, ']') then Some((Arr(items + [v]), t[1..]))
      else if Starts(t, ',') then ParseItems(t[1..], depth, items + [v])
      else None
  }

  /** A member's key and the text after its colon; a key already in `keys` is refused. */
  function ParseKey(s: string, keys: set<string>): (r: Option<(string, string)>)
    ensures r.Some? ==> |r.value.1| < |s|
  {
    match ParseString(SkipSpace(s))
    case None => None
    case Some((key, afterKey)) =>
      var t := SkipSpace(afterKey);
      if key in keys || !Starts(t, ':') then None else Some((key, t[1..]))
  }

  /** The rest of an object after its opening brace or a comma. */
  function ParseMembers(s: string, depth: nat, fields: map<string, Json>): (r: Parsed)
    ensures r.Some? ==> |r.value.1| < |s|
    decreases |s|, 1
  {
    match ParseKey(s, fields.Keys)
    case None => None
    case Some((key, value)) =>
      match ParseValue(value, depth + 1)
      case None => None
      case Some((v, rest)) =>
        var u := SkipSpace(rest);
        if Starts(u, '}') then Some((Obj(fields[key := v]), u[1..]))
        else if Starts(u, ',') then ParseMembers(u[1..], depth, fields[key := v])
        else None
  }

  /** `parse_json`: one value, nothing after it, within the limits of the printer. */
  ghost function Parse(text: string): Option<Json> {
    if |Utf8(text)| > MAX_BYTES then None
    else
      match ParseValue(text, 0)
      case None => None
      case Some((v, rest)) => if SkipSpace(rest) == "" && Canonical(v).Some? then Some(v) else None
  }
}
