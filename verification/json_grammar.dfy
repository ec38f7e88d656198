/**
 The grammar of JSON texts as concrete syntax trees, independent of the parser: a tree
 unparses to exactly one text, keeping layout, escapes and repeated members. The parser
 is sound and complete for it.
 */
module JsonGrammar {
  import opened Common
  import opened Text
  import opened Json
  import opened JsonText

  /** Every node starts with its leading whitespace; `post` is whitespace after a value. */
  datatype Tree =
    | Token(pre: string, v: Json)
    | TString(pre: string, raw: string)
    | TArray(pre: string, inner: string, items: seq<Item>)
    | TObject(pre: string, inner: string, members: seq<Member>)

  datatype Item = Item(tree: Tree, post: string)

  datatype Member = Member(keyPre: string, key: string, keyPost: string, tree: Tree, post: string)

  // ---------- well-formed trees and their text ----------

  predicate Spaces(s: string) {
    forall i :: 0 <= i < |s| ==> IsSpace(s[i])
  }

  /** Raw string text whose first unescaped quote is the closing one. */
  predicate Closed(raw: string)
    decreases |raw|
  {
    || raw == ""
    || (raw[0] == '\\' && |raw| >= 2 && Closed(raw[2..]))
    || (raw[0] != '\\' && raw[0] != '"' && Closed(raw[1..]))
  }

  predicate WellFormed(t: Tree) {
    Spaces(t.pre) &&
    match t
    case Token(pre, v) => v.Null? || v.Bool? || v.Int?
    case TString(pre, raw) => Closed(raw)
    case TArray(pre, inner, items) =>
      Spaces(inner) && forall i :: 0 <= i < |items| ==> WellFormed(items[i].tree) && Spaces(items[i].post)
    case TObject(pre, inner, members) =>
      Spaces(inner) && forall i :: 0 <= i < |members| ==>
        && Spaces(members[i].keyPre) && Closed(members[i].key) && Spaces(members[i].keyPost)
        && WellFormed(members[i].tree) && Spaces(members[i].post)
  }

  function TokenText(v: Json): string {
    match v
    case Null => "null"
    case Bool(b) => if b then "true" else "false"
    case Int(n) => PrintInt(n)
    case _ => ""
  }

  function Unparse(t: Tree): string
    decreases t, 1
  {
    t.pre +
    match t
    case Token(pre, v) => TokenText(v)
    case TString(pre, raw) => "\"" + raw + "\""
    case TArray(pre, inner, items) => if items == [] then "[" + inner + "]" else "[" + UnparseItems(items)
    case TObject(pre, inner, members) => if members == [] then "{" + inner + "}" else "{" + UnparseMembers(members)
  }

  /** Items up to and including the closing bracket. */
  function UnparseItems(items: seq<Item>): string
    requires items != []
    decreases items, 0
  {
    Unparse(items[0].tree) + items[0].post + if |items| == 1 then "]" else "," + UnparseItems(items[1..])
  }

  function UnparseMembers(members: seq<Member>): string
    requires members != []
    decreases members, 0
  {
    var m := members[0];
    m.keyPre + "\"" + m.key + "\"" + m.keyPost + ":" + Unparse(m.tree) + m.post
    + if |members| == 1 then "}" else "," + UnparseMembers(members[1..])
  }

  // ---------- what a tree means ----------

  function Name(raw: string): string {
    match Unescape(raw)
    case Some(s) => s
    case None => ""
  }

  /** Escapes are valid, keys are distinct once unescaped, nesting is bounded: at every level. */
  predicate Good(t: Tree, depth: nat)
    decreases t, 1
  {
    depth <= MAX_DEPTH &&
    match t
    case Token(pre, v) => true
    case TString(pre, raw) => Unescape(raw).Some?
    case TArray(pre, inner, items) => forall i :: 0 <= i < |items| ==> Good(items[i].tree, depth + 1)
    case TObject(pre, inner, members) => GoodMembers(members, depth, {})
  }

  predicate GoodMembers(members: seq<Member>, depth: nat, seen: set<string>)
    decreases members, 0
  {
    members == [] ||
    (var m := members[0];
     && Unescape(m.key).Some? && Name(m.key) !in seen
     && Good(m.tree, depth + 1)
     && GoodMembers(members[1..], depth, seen + {Name(m.key)}))
  }

  function Meaning(t: Tree): Json
    decreases t, 1
  {
    match t
    case Token(pre, v) => v
    case TString(pre, raw) => Str(Name(raw))
    case TArray(pre, inner, items) => Arr(ItemValues(items))
    case TObject(pre, inner, members) => Obj(MemberMap(members, map[]))
  }

  function ItemValues(items: seq<Item>): seq<Json>
    decreases items, 0
  {
    if items == [] then [] else [Meaning(items[0].tree)] + ItemValues(items[1..])
  }

  function MemberMap(members: seq<Member>, fields: map<string, Json>): map<string, Json>
    decreases members, 0
  {
    if members == [] then fields
    else MemberMap(members[1..], fields[Name(members[0].key) := Meaning(members[0].tree)])
  }

  // ---------- scanning lemmas ----------

  /** Text that cannot continue a number. */
  predicate Ends(s: string) {
    s == "" || !IsDigit(s[0])
  }

  lemma {:induction false} SkipSpaces(w: string, s: string)
    requires Spaces(w)
    ensures SkipSpace(w + s) == SkipSpace(s)
  {
    if w == "" {
      assert w + s == s;
    } else {
      assert (w + s)[1..] == w[1..] + s;
      SkipSpaces(w[1..], s);
    }
  }

  lemma {:induction false} ScanClosed(raw: string, s: string)
    requires Closed(raw)
    ensures ScanString(raw + "\"" + s) == Some((raw, s))
    decreases |raw|
  {
    var all := raw + "\"" + s;
    if raw == "" {
      assert all[1..] == s;
    } else {
      var n := if raw[0] == '\\' then 2 else 1;
      ScanClosed(raw[n..], s);
      assert all[n..] == raw[n..] + "\"" + s;
      assert all[..n] + raw[n..] == raw;
    }
  }

  lemma ParseStringReads(raw: string, s: string)
    requires Closed(raw)
    ensures ParseString("\"" + raw + "\"" + s) ==
      if Unescape(raw).Some? then Some((Unescape(raw).value, s)) else None
  {
    ScanClosed(raw, s);
    assert ("\"" + raw + "\"" + s)[1..] == raw + "\"" + s;
  }

  lemma {:induction false} TakeAllDigits(d: string, s: string)
    requires forall i :: 0 <= i < |d| ==> IsDigit(d[i])
    requires Ends(s)
    ensures TakeDigits(d + s) == |d|
  {
    if d == "" {
      assert d + s == s;
    } else {
      assert (d + s)[1..] == d[1..] + s;
      TakeAllDigits(d[1..], s);
    }
  }

  lemma ParseDigitsReads(n: nat, s: string)
    requires Ends(s)
    ensures ParseDigits(Decimal(n) + s) == Some((n, s))
  {
    DecimalRoundTrip(n);
    var d := Decimal(n);
    if d[0] == '0' {
      assert d == "0";
      assert (d + s)[1..] == s;
    } else {
      TakeAllDigits(d, s);
      assert (d + s)[..|d|] == d && (d + s)[|d|..] == s;
    }
  }

  lemma PrefixHead(p: string, s: string)
    requires p != "" && p <= s
    ensures s != "" && s[0] == p[0]
  {
  }

  lemma LiteralReads(v: Json, s: string)
    requires v.Null? || v.Bool?
    ensures ParseToken(TokenText(v) + s) == Some((v, s))
  {
    var text := TokenText(v);
    var all := text + s;
    assert text <= all && all[|text|..] == s;
    if "null" <= all {
      PrefixHead("null", all);
    }
    if "true" <= all {
      PrefixHead("true", all);
    }
  }

  lemma NotLiteral(s: string)
    requires s != "" && s[0] !in {'n', 't', 'f'}
    ensures ParseToken(s) == ParseNumber(s)
  {
    if "null" <= s {
      PrefixHead("null", s);
    } else if "true" <= s {
      PrefixHead("true", s);
    } else if "false" <= s {
      PrefixHead("false", s);
    }
  }

  lemma NaturalReads(n: nat, s: string)
    requires Ends(s)
    ensures Decimal(n) != "" && IsDigit(Decimal(n)[0])
    ensures ParseNumber(Decimal(n) + s) == Some((Int(n), s))
  {
    DecimalRoundTrip(n);
    ParseDigitsReads(n, s);
    hide Decimal, ParseDigits;
    assert (Decimal(n) + s)[0] == Decimal(n)[0];
  }

  lemma NegativeReads(n: nat, s: string)
    requires Ends(s) && n > 0
    ensures ParseNumber("-" + Decimal(n) + s) == Some((Int(-(n as int)), s))
  {
    ParseDigitsReads(n, s);
    hide Decimal, ParseDigits;
    assert ("-" + Decimal(n) + s)[1..] == Decimal(n) + s;
  }

  lemma NumberReads(n: int, s: string)
    requires Ends(s)
    ensures PrintInt(n) != "" && (PrintInt(n)[0] == '-' || IsDigit(PrintInt(n)[0]))
    ensures ParseNumber(PrintInt(n) + s) == Some((Int(n), s))
  {
    hide Decimal, ParseNumber;
    if n < 0 {
      NegativeReads(-n, s);
    } else {
      NaturalReads(n, s);
    }
  }

  lemma IntReads(n: int, s: string)
    requires Ends(s)
    ensures ParseToken(PrintInt(n) + s) == Some((Int(n), s))
    ensures PrintInt(n) != "" && (PrintInt(n)[0] == '-' || IsDigit(PrintInt(n)[0]))
  {
    hide PrintInt, ParseNumber, ParseToken;
    NumberReads(n, s);
    assert (PrintInt(n) + s)[0] == PrintInt(n)[0];
    NotLiteral(PrintInt(n) + s);
  }

  lemma TokenReads(v: Json, s: string)
    requires v.Null? || v.Bool? || v.Int?
    requires Ends(s)
    ensures ParseToken(TokenText(v) + s) == Some((v, s))
    ensures TokenText(v) != "" && !IsSpace(TokenText(v)[0]) && TokenText(v)[0] !in {'"', '[', '{'}
  {
    match v
    case Int(n) => IntReads(n, s);
    case _ => LiteralReads(v, s);
  }

  // ---------- completeness: every tree is read back as it means ----------

  lemma {:induction false} SkipTwice(s: string)
    ensures SkipSpace(SkipSpace(s)) == SkipSpace(s)
  {
    if s == "" || !IsSpace(s[0]) {
    } else {
      SkipTwice(s[1..]);
    }
  }

  /** Leading whitespace makes no difference to any parser entry. */
  lemma LeadingSpace(s: string, depth: nat)
    ensures ParseValue(SkipSpace(s), depth) == ParseValue(s, depth)
    ensures forall items :: ParseItems(SkipSpace(s), depth, items) == ParseItems(s, depth, items)
    ensures forall fields :: ParseMembers(SkipSpace(s), depth, fields) == ParseMembers(s, depth, fields)
  {
    SkipTwice(s);
    var t := SkipSpace(s);
    assert ParseValue(t, depth) == ParseValue(s, depth);
    assert ParseValue(t, depth + 1) == ParseValue(s, depth + 1);
  }

  /** The text of a tree after its leading whitespace. */
  function Core(t: Tree): string {
    match t
    case Token(pre, v) => TokenText(v)
    case TString(pre, raw) => "\"" + raw + "\""
    case TArray(pre, inner, items) => if items == [] then "[" + inner + "]" else "[" + UnparseItems(items)
    case TObject(pre, inner, members) => if members == [] then "{" + inner + "}" else "{" + UnparseMembers(members)
  }

  lemma CoreHead(t: Tree)
    requires WellFormed(t)
    ensures Unparse(t) == t.pre + Core(t)
    ensures Core(t) != "" && !IsSpace(Core(t)[0]) && Core(t)[0] != ']'
  {
    if t.Token? {
      TokenReads(t.v, "");
      if t.v.Int? {
        IntReads(t.v.n, "");
      }
    }
  }

  lemma SkipToCore(t: Tree, s: string)
    requires WellFormed(t)
    ensures SkipSpace(Unparse(t) + s) == Core(t) + s
  {
    CoreHead(t);
    PreText(t, s);
    hide SkipSpace, Core, Unparse;
    SkipTo(t.pre, Core(t)[0], Core(t) + s);
  }

  lemma PreText(t: Tree, s: string)
    ensures Unparse(t) + s == t.pre + (Core(t) + s)
  {
  }

  lemma EndsAfter(post: string, s: string)
    requires Spaces(post) && Ends(s)
    ensures Ends(post + s)
  {
  }

  // One step of each parser entry, with the pieces of its text named.

  lemma OpensArray(x: string, body: string, depth: nat)
    requires SkipSpace(x) == "[" + body && depth <= MAX_DEPTH
    ensures var u := SkipSpace(body);
      ParseValue(x, depth) == if Starts(u, ']') then Some((Arr([]), u[1..])) else ParseItems(body, depth, [])
  {
    assert ("[" + body)[1..] == body;
    LeadingSpace(body, depth);
  }

  lemma OpensObject(x: string, body: string, depth: nat)
    requires SkipSpace(x) == "{" + body && depth <= MAX_DEPTH
    ensures var u := SkipSpace(body);
      ParseValue(x, depth) == if Starts(u, '}') then Some((Obj(map[]), u[1..])) else ParseMembers(body, depth, map[])
  {
    assert ("{" + body)[1..] == body;
    LeadingSpace(body, depth);
  }

  lemma LastItem(x: string, depth: nat, before: seq<Json>, v: Json, rest: string, s: string)
    requires ParseValue(x, depth + 1) == Some((v, rest)) && SkipSpace(rest) == "]" + s
    ensures ParseItems(x, depth, before) == Some((Arr(before + [v]), s))
  {
    assert ("]" + s)[1..] == s;
  }

  lemma NextItem(x: string, depth: nat, before: seq<Json>, v: Json, rest: string, more: string)
    requires ParseValue(x, depth + 1) == Some((v, rest)) && SkipSpace(rest) == "," + more
    ensures ParseItems(x, depth, before) == ParseItems(more, depth, before + [v])
  {
    assert ("," + more)[1..] == more;
  }

  lemma MemberRefused(x: string, depth: nat, fields: map<string, Json>, raw: string, afterKey: string, value: string)
    requires Closed(raw)
    requires SkipSpace(x) == "\"" + raw + "\"" + afterKey && SkipSpace(afterKey) == ":" + value
    requires Unescape(raw).None? || Name(raw) in fields || ParseValue(value, depth + 1).None?
    ensures ParseMembers(x, depth, fields) == None
  {
    ParseStringReads(raw, afterKey);
    assert (":" + value)[1..] == value;
  }

  lemma LastMember(
    x: string, depth: nat, fields: map<string, Json>, raw: string, afterKey: string, value: string, v: Json,
    rest: string,
    s: string)
    requires Closed(raw) && Unescape(raw).Some? && Name(raw) !in fields
    requires SkipSpace(x) == "\"" + raw + "\"" + afterKey && SkipSpace(afterKey) == ":" + value
    requires ParseValue(value, depth + 1) == Some((v, rest)) && SkipSpace(rest) == "}" + s
    ensures ParseMembers(x, depth, fields) == Some((Obj(fields[Name(raw) := v]), s))
  {
    ParseStringReads(raw, afterKey);
    assert (":" + value)[1..] == value && ("}" + s)[1..] == s;
  }

  lemma NextMember(
    x: string, depth: nat, fields: map<string, Json>, raw: string, afterKey: string, value: string, v: Json,
    rest: string,
    more: string)
    requires Closed(raw) && Unescape(raw).Some? && Name(raw) !in fields
    requires SkipSpace(x) == "\"" + raw + "\"" + afterKey && SkipSpace(afterKey) == ":" + value
    requires ParseValue(value, depth + 1) == Some((v, rest)) && SkipSpace(rest) == "," + more
    ensures ParseMembers(x, depth, fields) == ParseMembers(more, depth, fields[Name(raw) := v])
  {
    ParseStringReads(raw, afterKey);
    hide SkipSpace, Closed, Unescape, Name, ParseString;
    assert (":" + value)[1..] == value && ("," + more)[1..] == more;
  }

  lemma {:induction false} ValueReads(t: Tree, depth: nat, s: string)
    requires WellFormed(t) && Ends(s)
    ensures ParseValue(Unparse(t) + s, depth) == if Good(t, depth) then Some((Meaning(t), s)) else None
    decreases t, 1
  {
    SkipToCore(t, s);
    if depth <= MAX_DEPTH {
      match t
      case Token(pre, v) =>
        TokenReads(v, s);
        assert (TokenText(v) + s)[0] == TokenText(v)[0];
      case TString(pre, raw) =>
        ParseStringReads(raw, s);
      case TArray(pre, inner, items) => ArrayReads(t, depth, s);
      case TObject(pre, inner, members) => ObjectReads(t, depth, s);
    }
  }

  lemma {:induction false} ArrayReads(t: Tree, depth: nat, s: string)
    requires t.TArray? && WellFormed(t) && Ends(s) && depth <= MAX_DEPTH
    ensures ParseValue(Unparse(t) + s, depth) == if Good(t, depth) then Some((Meaning(t), s)) else None
    decreases t, 0
  {
    hide ParseValue, ParseItems, SkipSpace;
    SkipToCore(t, s);
    var body := if t.items == [] then t.inner + ("]" + s) else UnparseItems(t.items) + s;
    assert Core(t) + s == "[" + body;
    OpensArray(Unparse(t) + s, body, depth);
    if t.items == [] {
      SkipSpaces(t.inner, "]" + s);
      BracketStays(']', s);
    } else {
      ItemsHead(t.items, s);
      ItemsRead(t.items, depth, [], s);
      assert [] + ItemValues(t.items) == ItemValues(t.items);
    }
  }

  lemma BracketStays(c: char, s: string)
    requires !IsSpace(c)
    ensures SkipSpace([c] + s) == [c] + s && ([c] + s)[1..] == s
  {
  }

  lemma ItemsHead(items: seq<Item>, s: string)
    requires items != [] && WellFormed(items[0].tree)
    ensures !Starts(SkipSpace(UnparseItems(items) + s), ']')
  {
    var rest := UnparseItems(items)[|Unparse(items[0].tree)|..] + s;
    assert UnparseItems(items) + s == Unparse(items[0].tree) + rest;
    SkipToCore(items[0].tree, rest);
    CoreHead(items[0].tree);
  }

  ghost predicate GoodItems(items: seq<Item>, depth: nat) {
    forall i :: 0 <= i < |items| ==> Good(items[i].tree, depth + 1)
  }

  lemma GoodItemsCons(items: seq<Item>, depth: nat)
    requires items != []
    ensures GoodItems(items, depth) <==> Good(items[0].tree, depth + 1) && GoodItems(items[1..], depth)
  {
    assert forall i :: 0 < i < |items| ==> items[i] == items[1..][i - 1];
  }

  lemma ItemsText(items: seq<Item>, s: string, tail: string)
    requires items != []
    requires tail == if |items| == 1 then "]" + s else "," + (UnparseItems(items[1..]) + s)
    ensures UnparseItems(items) + s == Unparse(items[0].tree) + (items[0].post + tail)
  {
    hide Unparse;
    var last := if |items| == 1 then "]" else "," + UnparseItems(items[1..]);
    assert tail == last + s;
    Associate(Unparse(items[0].tree), items[0].post, last, s);
  }

  lemma Associate(a: string, b: string, c: string, d: string)
    ensures a + b + c + d == a + (b + (c + d))
  {
  }

  lemma {:induction false} ItemsRead(items: seq<Item>, depth: nat, before: seq<Json>, s: string)
    requires items != [] && Ends(s)
    requires forall i :: 0 <= i < |items| ==> WellFormed(items[i].tree) && Spaces(items[i].post)
    ensures ParseItems(UnparseItems(items) + s, depth, before) ==
      if GoodItems(items, depth) then Some((Arr(before + ItemValues(items)), s)) else None
    decreases items, 0
  {
    var item, more := items[0], items[1..];
    var tail := if |items| == 1 then "]" + s else "," + (UnparseItems(more) + s);
    var x := UnparseItems(items) + s;
    ItemsText(items, s, tail);
    EndsAfter(item.post, tail);
    ValueReads(item.tree, depth + 1, item.post + tail);
    GoodItemsCons(items, depth);
    if Good(item.tree, depth + 1) {
      hide ParseValue, ParseItems, SkipSpace, GoodItems, Good, WellFormed, Unparse, Meaning;
      var v := Meaning(item.tree);
      SkipSpaces(item.post, tail);
      if more == [] {
        BracketStays(']', s);
        LastItem(x, depth, before, v, item.post + tail, s);
        assert ItemValues(items) == [v];
        assert GoodItems(more, depth) by {
          NoItems(depth);
        }
      } else {
        BracketStays(',', UnparseItems(more) + s);
        NextItem(x, depth, before, v, item.post + tail, UnparseItems(more) + s);
        ItemsRead(more, depth, before + [v], s);
        assert before + ItemValues(items) == before + [v] + ItemValues(more);
      }
    }
  }

  lemma NoItems(depth: nat)
    ensures GoodItems([], depth)
  {
  }

  lemma {:induction false} ObjectReads(t: Tree, depth: nat, s: string)
    requires t.TObject? && WellFormed(t) && Ends(s) && depth <= MAX_DEPTH
    ensures ParseValue(Unparse(t) + s, depth) == if Good(t, depth) then Some((Meaning(t), s)) else None
    decreases t, 0
  {
    hide ParseValue, ParseMembers, SkipSpace;
    SkipToCore(t, s);
    var body := if t.members == [] then t.inner + ("}" + s) else UnparseMembers(t.members) + s;
    ObjectCore(t, body, s);
    OpensObject(Unparse(t) + s, body, depth);
    hide Unparse, UnparseMembers, Core;
    if t.members == [] {
      SkipSpaces(t.inner, "}" + s);
      BracketStays('}', s);
    } else {
      MembersHead(t.members, s);
      assert forall i :: 0 <= i < |t.members| ==> WellFormedMember(t.members[i]);
      var none: map<string, Json> := map[];
      MembersRead(t.members, depth, none, s);
      assert none.Keys == {};
    }
  }

  lemma ObjectCore(t: Tree, body: string, s: string)
    requires t.TObject? && body == if t.members == [] then t.inner + ("}" + s) else UnparseMembers(t.members) + s
    ensures Core(t) + s == "{" + body
  {
    hide UnparseMembers;
  }

  lemma MembersHead(members: seq<Member>, s: string)
    requires members != [] && Spaces(members[0].keyPre)
    ensures !Starts(SkipSpace(UnparseMembers(members) + s), '}')
  {
    var m := members[0];
    var rest := (UnparseMembers(members) + s)[|m.keyPre|..];
    assert UnparseMembers(members) + s == m.keyPre + rest && rest[0] == '"';
    SkipSpaces(m.keyPre, rest);
  }

  ghost predicate WellFormedMember(m: Member) {
    Spaces(m.keyPre) && Closed(m.key) && Spaces(m.keyPost) && WellFormed(m.tree) && Spaces(m.post)
  }

  lemma Regroup(a: string, b: string, c: string, d: string, e: string, f: string, s: string)
    ensures a + "\"" + b + "\"" + c + ":" + d + e + f + s == a + ("\"" + b + "\"" + (c + (":" + (d + (e + (f + s))))))
  {
    var rest := d + (e + (f + s));
    assert a + "\"" + b + "\"" + c + ":" + d + e + f + s == a + "\"" + b + "\"" + c + ":" + rest;
    assert a + "\"" + b + "\"" + c + ":" + rest == a + ("\"" + b + "\"" + (c + (":" + rest)));
  }

  /** The text of a member list, cut where the parser's steps cut it. */
  lemma MembersText(members: seq<Member>, s: string, tail: string, value: string, afterKey: string)
    requires members != [] && WellFormedMember(members[0])
    requires tail == if |members| == 1 then "}" + s else "," + (UnparseMembers(members[1..]) + s)
    requires value == Unparse(members[0].tree) + (members[0].post + tail)
    requires afterKey == members[0].keyPost + (":" + value)
    ensures SkipSpace(UnparseMembers(members) + s) == "\"" + members[0].key + "\"" + afterKey
    ensures SkipSpace(afterKey) == ":" + value
    ensures SkipSpace(members[0].post + tail) == tail
  {
    var m := members[0];
    var quoted := "\"" + m.key + "\"" + afterKey;
    FirstMemberText(members, s, tail, m.keyPre + quoted, value, afterKey);
    hide SkipSpace, Unparse, UnparseMembers;
    SkipTo(m.keyPre, '"', quoted);
    SkipTo(m.keyPost, ':', ":" + value);
    SkipTo(m.post, tail[0], tail);
  }

  lemma SkipTo(w: string, c: char, s: string)
    requires Spaces(w) && s != "" && s[0] == c && !IsSpace(c)
    ensures SkipSpace(w + s) == s
  {
    hide SkipSpace;
    SkipSpaces(w, s);
    assert s == [c] + s[1..];
    BracketStays(c, s[1..]);
  }

  lemma FirstMemberText(members: seq<Member>, s: string, tail: string, text: string, value: string, afterKey: string)
    requires members != []
    requires tail == if |members| == 1 then "}" + s else "," + (UnparseMembers(members[1..]) + s)
    requires value == Unparse(members[0].tree) + (members[0].post + tail)
    requires afterKey == members[0].keyPost + (":" + value)
    requires text == members[0].keyPre + ("\"" + members[0].key + "\"" + afterKey)
    ensures UnparseMembers(members) + s == text
  {
    var m := members[0];
    var last := if |members| == 1 then "}" else "," + UnparseMembers(members[1..]);
    MembersUnfold(members, last);
    TailText(members, s, last, tail);
    hide Unparse, UnparseMembers;
    Substitute(m.keyPre, m.key, m.keyPost, Unparse(m.tree), m.post, last, s, tail, value, afterKey);
  }

  lemma TailText(members: seq<Member>, s: string, last: string, tail: string)
    requires members != [] && last == if |members| == 1 then "}" else "," + UnparseMembers(members[1..])
    requires tail == if |members| == 1 then "}" + s else "," + (UnparseMembers(members[1..]) + s)
    ensures tail == last + s
  {
    hide UnparseMembers;
  }

  lemma Substitute(
    a: string, b: string, c: string, d: string, e: string, f: string, s: string,
    tail: string, value: string, afterKey: string)
    requires tail == f + s && value == d + (e + tail) && afterKey == c + (":" + value)
    ensures a + "\"" + b + "\"" + c + ":" + d + e + f + s == a + ("\"" + b + "\"" + afterKey)
  {
    Regroup(a, b, c, d, e, f, s);
  }

  lemma MembersUnfold(members: seq<Member>, last: string)
    requires members != [] && last == if |members| == 1 then "}" else "," + UnparseMembers(members[1..])
    ensures var m := members[0];
      UnparseMembers(members) == m.keyPre + "\"" + m.key + "\"" + m.keyPost + ":" + Unparse(m.tree) + m.post + last
  {
    hide Unparse;
  }

  lemma {:induction false} MembersRead(members: seq<Member>, depth: nat, fields: map<string, Json>, s: string)
    requires members != [] && Ends(s)
    requires forall i :: 0 <= i < |members| ==> WellFormedMember(members[i])
    ensures ParseMembers(UnparseMembers(members) + s, depth, fields) ==
      if GoodMembers(members, depth, fields.Keys) then Some((Obj(MemberMap(members, fields)), s)) else None
    decreases members, 0
  {
    var m, more := members[0], members[1..];
    assert WellFormedMember(m);
    var tail := if |members| == 1 then "}" + s else "," + (UnparseMembers(more) + s);
    var value := Unparse(m.tree) + (m.post + tail);
    var afterKey := m.keyPost + (":" + value);
    var x := UnparseMembers(members) + s;
    MembersText(members, s, tail, value, afterKey);
    EndsAfter(m.post, tail);
    ValueReads(m.tree, depth + 1, m.post + tail);
    hide ParseValue, ParseMembers, SkipSpace, Good, WellFormed, Unescape, Name, Unparse, Meaning, Closed;
    if Unescape(m.key).None? || Name(m.key) in fields || !Good(m.tree, depth + 1) {
      MemberRefused(x, depth, fields, m.key, afterKey, value);
    } else {
      var v := Meaning(m.tree);
      var next := fields[Name(m.key) := v];
      assert next.Keys == fields.Keys + {Name(m.key)};
      if more == [] {
        LastMember(x, depth, fields, m.key, afterKey, value, v, m.post + tail, s);
      } else {
        NextMember(x, depth, fields, m.key, afterKey, value, v, m.post + tail, UnparseMembers(more) + s);
        MembersRead(more, depth, next, s);
      }
    }
  }
}
