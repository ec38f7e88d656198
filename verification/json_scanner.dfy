/**
 The strict parser as web/src/ledger.ts spells it out: a cursor that moves over the text,
 with a set of seen keys per object. It is proved against the parser functions.
 */
module JsonScanner {
  import opened Common
  import opened Text
  import opened Json
  import opened JsonText

  class Scanner {
    const text: string
    var pos: nat

    constructor (text: string)
      ensures this.text == text && pos == 0
    {
      this.text := text;
      pos := 0;
    }

    /** The text the cursor has not passed. */
    ghost function Rest(): string
      reads this
    {
      if pos <= |text| then text[pos..] else ""
    }

    ghost predicate At(c: char)
      reads this
    {
      pos < |text| && text[pos] == c
    }

    method Whitespace()
      requires pos <= |text|
      modifies this`pos
      ensures old(pos) <= pos <= |text|
      ensures Rest() == SkipSpace(old(Rest()))
    {
      while pos < |text| && IsSpace(text[pos])
        invariant old(pos) <= pos <= |text|
        invariant SkipSpace(Rest()) == SkipSpace(old(Rest()))
      {
        assert Rest()[1..] == text[pos + 1..];
        pos := pos + 1;
      }
    }

    /** From behind an opening quote to behind the closing one: the raw text between them. */
    method Raw() returns (r: Option<string>)
      requires pos <= |text|
      modifies this`pos
      ensures match ScanString(old(Rest()))
        case None => r.None?
        case Some((raw, rest)) => r == Some(raw) && old(pos) < pos <= |text| && Rest() == rest
    {
      hide ScanString;
      var start := pos;
      ghost var body := Rest();
      PrependNothing(body);
      assert text[start..pos] == "";
      while pos < |text|
        invariant start <= pos
        invariant pos > |text| ==> ScanString(body).None?
        invariant pos <= |text| ==> ScanString(body) == Prepend(text[start..pos], ScanString(Rest()))
        decreases |text| - pos
      {
        ScanStep(text[start..pos], Rest());
        var n := if text[pos] == '\\' then 2 else 1;
        Advance(text, pos, n);
        if text[pos] == '"' {
          r := Some(text[start..pos]);
          pos := pos + 1;
          return;
        }
        Extend(text, start, pos, n);
        pos := pos + n;
      }
      if pos <= |text| {
        NothingLeft();
      }
      r := None;
    }

    /** Reads a quoted string; `None` when it is not closed or not well formed. */
    method String() returns (r: Option<string>)
      requires At('"')
      modifies this`pos
      ensures match ParseString(old(Rest()))
        case None => r.None?
        case Some((s, rest)) => r == Some(s) && old(pos) < pos <= |text| && Rest() == rest
    {
      Advance(text, pos, 1);
      pos := pos + 1;
      var raw := Raw();
      r := if raw.Some? then Unescape(raw.value) else None;
    }

    method Token() returns (r: Option<Json>)
      requires pos <= |text|
      modifies this`pos
      ensures match ParseToken(old(Rest()))
        case None => r.None?
        case Some((v, rest)) => r == Some(v) && old(pos) < pos <= |text| && Rest() == rest
    {
      match ParseToken(text[pos..]) {
        case None => r := None;
        case Some((v, rest)) =>
          TokenIsPrefix(text[pos..]);
          pos := |text| - |rest|;
          r := Some(v);
      }
    }

    /** One value, however deeply nested; the cursor stops right behind it. */
    method Value(depth: nat) returns (r: Option<Json>)
      requires pos <= |text|
      modifies this`pos
      ensures match ParseValue(old(Rest()), depth)
        case None => r.None?
        case Some((v, rest)) => r == Some(v) && old(pos) < pos <= |text| && Rest() == rest
      decreases |text| - pos, 1
    {
      if depth > MAX_DEPTH {
        return None;
      }
      ghost var entry := Rest();
      Whitespace();
      if pos < |text| && text[pos] == '"' {
        var s := String();
        r := if s.Some? then Some(Str(s.value)) else None;
      } else if pos < |text| && text[pos] == '[' {
        r := Items(depth, entry);
      } else if pos < |text| && text[pos] == '{' {
        r := Members(depth, entry);
      } else {
        r := Token();
      }
    }

    method Items(depth: nat, ghost entry: string) returns (r: Option<Json>)
      requires At('[') && depth <= MAX_DEPTH && SkipSpace(entry) == Rest()
      modifies this`pos
      ensures match ParseValue(entry, depth)
        case None => r.None?
        case Some((v, rest)) => r == Some(v) && old(pos) < pos <= |text| && Rest() == rest
      decreases |text| - pos, 0
    {
      hide ParseValue, ParseItems, SkipSpace;
      ghost var start := pos;
      ArrayOpens(entry, depth);
      Advance(text, pos, 1);
      pos := pos + 1;
      Whitespace();
      if pos < |text| && text[pos] == ']' {
        pos := pos + 1;
        return Some(Arr([]));
      }
      var items: seq<Json> := [];
      while true
        invariant start < pos <= |text|
        invariant ParseValue(entry, depth) == ParseItems(Rest(), depth, items)
        decreases |text| - pos
      {
        ItemsStep(Rest(), depth, items);
        var v := Value(depth + 1);
        if v.None? {
          return None;
        }
        items := items + [v.value];
        var closed := Separator(']');
        if closed != Some(false) {
          return if closed.Some? then Some(Arr(items)) else None;
        }
      }
    }

    /** Object members: a key already in `keys` ends the parse. */
    method Members(depth: nat, ghost entry: string) returns (r: Option<Json>)
      requires At('{') && depth <= MAX_DEPTH && SkipSpace(entry) == Rest()
      modifies this`pos
      ensures match ParseValue(entry, depth)
        case None => r.None?
        case Some((v, rest)) => r == Some(v) && old(pos) < pos <= |text| && Rest() == rest
      decreases |text| - pos, 0
    {
      hide ParseValue, ParseMembers, SkipSpace, ParseKey;
      ghost var start := pos;
      ObjectOpens(entry, depth);
      Advance(text, pos, 1);
      pos := pos + 1;
      Whitespace();
      if pos < |text| && text[pos] == '}' {
        pos := pos + 1;
        return Some(Obj(map[]));
      }
      var keys: set<string> := {};
      var fields: map<string, Json> := map[];
      while true
        invariant start < pos <= |text| && keys == fields.Keys
        invariant ParseValue(entry, depth) == ParseMembers(Rest(), depth, fields)
        decreases |text| - pos
      {
        MembersStep(Rest(), depth, fields);
        var key := Key(keys);
        if key.None? {
          return None;
        }
        keys := keys + {key.value};
        var v := Value(depth + 1);
        if v.None? {
          return None;
        }
        fields := fields[key.value := v.value];
        var closed := Separator('}');
        if closed != Some(false) {
          return if closed.Some? then Some(Obj(fields)) else None;
        }
      }
    }

    /** After a value: the closing bracket ends the container, a comma continues it. */
    method Separator(end: char) returns (closed: Option<bool>)
      requires pos <= |text| && end != ','
      modifies this`pos
      ensures old(pos) <= pos <= |text|
      ensures var u := SkipSpace(old(Rest()));
        if Starts(u, end) then closed == Some(true) && Rest() == u[1..] && old(pos) < pos
        else if Starts(u, ',') then closed == Some(false) && Rest() == u[1..] && old(pos) < pos
        else closed.None?
    {
      Whitespace();
      Advance(text, pos, 1);
      if pos < |text| && text[pos] == end {
        pos := pos + 1;
        return Some(true);
      }
      if !(pos < |text| && text[pos] == ',') {
        return None;
      }
      pos := pos + 1;
      return Some(false);
    }

    /** A key that is not in `keys`, with its colon. */
    method Key(keys: set<string>) returns (r: Option<string>)
      requires pos <= |text|
      modifies this`pos
      ensures match ParseKey(old(Rest()), keys)
        case None => r.None?
        case Some((key, rest)) => r == Some(key) && old(pos) < pos <= |text| && Rest() == rest
    {
      hide ParseString, SkipSpace;
      Whitespace();
      if !(pos < |text| && text[pos] == '"') {
        NotQuoted(Rest());
        return None;
      }
      r := String();
      if r.None? || r.value in keys {
        return None;
      }
      Whitespace();
      if !(pos < |text| && text[pos] == ':') {
        return None;
      }
      Advance(text, pos, 1);
      pos := pos + 1;
    }
  }

  ghost function Prepend(p: string, r: Option<(string, string)>): Option<(string, string)> {
    match r
    case None => None
    case Some((raw, rest)) => Some((p + raw, rest))
  }

  lemma PrependNothing(s: string)
    ensures Prepend("", ScanString(s)) == ScanString(s)
  {
    hide ScanString;
    match ScanString(s)
    case None =>
    case Some((raw, rest)) => assert "" + raw == raw;
  }

  /** One step of the scan: a quote ends it, a backslash takes two characters, others take one. */
  lemma ScanStep(before: string, s: string)
    requires s != ""
    ensures s[0] == '"' ==> Prepend(before, ScanString(s)) == Some((before, s[1..]))
    ensures s[0] != '"' ==> var n := if s[0] == '\\' then 2 else 1;
      Prepend(before, ScanString(s)) ==
      if |s| < n then None else Prepend(before + s[..n], ScanString(s[n..]))
  {
    if s[0] == '"' {
      assert before + "" == before;
    } else {
      var n := if s[0] == '\\' then 2 else 1;
      if |s| >= n && ScanString(s[n..]).Some? {
        var raw := ScanString(s[n..]).value.0;
        assert before + (s[..n] + raw) == before + s[..n] + raw;
      }
    }
  }

  lemma NothingLeft()
    ensures ScanString("").None?
  {
  }

  lemma Advance(text: string, pos: nat, n: nat)
    ensures pos + n <= |text| ==> text[pos..][n..] == text[pos + n..]
    ensures pos < |text| ==> text[pos..][0] == text[pos]
  {
  }

  lemma Extend(text: string, start: nat, pos: nat, n: nat)
    requires start <= pos
    ensures pos + n <= |text| ==> text[start..pos] + text[pos..][..n] == text[start..pos + n]
  {
  }

  // The parser functions one step at a time, for the loops below which hide them.

  lemma ArrayOpens(s: string, depth: nat)
    requires Starts(SkipSpace(s), '[') && depth <= MAX_DEPTH
    ensures var u := SkipSpace(SkipSpace(s)[1..]);
      ParseValue(s, depth) == if Starts(u, ']') then Some((Arr([]), u[1..])) else ParseItems(u, depth, [])
  {
  }

  lemma ObjectOpens(s: string, depth: nat)
    requires Starts(SkipSpace(s), '{') && depth <= MAX_DEPTH
    ensures var u := SkipSpace(SkipSpace(s)[1..]);
      ParseValue(s, depth) == if Starts(u, '}') then Some((Obj(map[]), u[1..])) else ParseMembers(u, depth, map[])
  {
  }

  lemma ItemsStep(s: string, depth: nat, items: seq<Json>)
    ensures ParseValue(s, depth + 1).None? ==> ParseItems(s, depth, items).None?
    ensures ParseValue(s, depth + 1).Some? ==>
      var (v, rest) := ParseValue(s, depth + 1).value;
      var t := SkipSpace(rest);
      ParseItems(s, depth, items) ==
      if Starts(t, ']') then Some((Arr(items + [v]), t[1..]))
      else if Starts(t, ',') then ParseItems(t[1..], depth, items + [v]) else None
  {
  }

  lemma NotQuoted(s: string)
    requires !Starts(s, '"')
    ensures ParseString(s).None?
  {
  }

  lemma MembersStep(s: string, depth: nat, fields: map<string, Json>)
    ensures match ParseKey(s, fields.Keys)
      case None => ParseMembers(s, depth, fields).None?
      case Some((key, value)) =>
        match ParseValue(value, depth + 1)
        case None => ParseMembers(s, depth, fields).None?
        case Some((v, rest)) =>
          var u := SkipSpace(rest);
          ParseMembers(s, depth, fields) ==
          if Starts(u, '}') then Some((Obj(fields[key := v]), u[1..]))
          else if Starts(u, ',') then ParseMembers(u[1..], depth, fields[key := v]) else None
  {
  }

  lemma {:induction false} TokenIsPrefix(s: string)
    requires ParseToken(s).Some?
    ensures var rest := ParseToken(s).value.1; |rest| < |s| && s[|s| - |rest|..] == rest
  {
  }

  /** `parseJson` up to the printer's limits, which the canonical printer checks afterwards. */
  method ScanText(text: string) returns (r: Option<Json>)
    ensures r == if |Utf8(text)| > MAX_BYTES then None
      else match ParseValue(text, 0)
        case None => None
        case Some((v, rest)) => if SkipSpace(rest) == "" then Some(v) else None
  {
    if |Utf8(text)| > MAX_BYTES {
      return None;
    }
    var scanner := new Scanner(text);
    assert scanner.Rest() == text;
    r := scanner.Value(0);
    if r.Some? {
      scanner.Whitespace();
      if scanner.pos != |text| {
        r := None;
      }
    }
  }

  /** The scanner accepts what `Parse` accepts, once the value also prints within limits. */
  lemma ScanIsParse(text: string, r: Option<Json>)
    requires r == if |Utf8(text)| > MAX_BYTES then None
      else match ParseValue(text, 0)
        case None => None
        case Some((v, rest)) => if SkipSpace(rest) == "" then Some(v) else None
    ensures Parse(text) == if r.Some? && Canonical(r.value).Some? then r else None
  {
  }
}
