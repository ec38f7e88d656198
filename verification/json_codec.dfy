/**
 What the codec is for: the printer and the strict parser undo each other, the parser
 accepts exactly the texts of good trees, and repeated keys never pass.
 */
module JsonCodec {
  import opened Common
  import opened Text
  import opened Json
  import opened JsonText
  import opened JsonGrammar

  // ---------- soundness: every accepted text is the text of a good tree ----------

  lemma {:induction false} SplitSpace(s: string) returns (w: string)
    ensures Spaces(w) && s == w + SkipSpace(s)
  {
    if s != "" && IsSpace(s[0]) {
      var t := SplitSpace(s[1..]);
      w := [s[0]] + t;
    } else {
      w := "";
    }
  }

  lemma {:induction false} ScanSound(s: string)
    requires ScanString(s).Some?
    ensures var (raw, rest) := ScanString(s).value; Closed(raw) && s == raw + "\"" + rest
    decreases |s|
  {
    var (raw, rest) := ScanString(s).value;
    if s[0] == '"' {
      assert s == "\"" + s[1..];
    } else {
      var n := if s[0] == '\\' then 2 else 1;
      ScanSound(s[n..]);
      var tail := ScanString(s[n..]).value.0;
      assert raw == s[..n] + tail && raw[n..] == tail;
      assert s == s[..n] + s[n..];
    }
  }

  lemma StringSound(s: string)
    requires ParseString(s).Some?
    ensures var (text, rest) := ParseString(s).value;
      exists raw :: Closed(raw) && Unescape(raw) == Some(text) && s == "\"" + raw + "\"" + rest
  {
    ScanSound(s[1..]);
    var (raw, rest) := ScanString(s[1..]).value;
    assert s == "\"" + s[1..];
    assert Closed(raw) && s == "\"" + raw + "\"" + rest;
  }

  lemma LastDigit(q: nat, r: nat)
    requires r < 10
    ensures (10 * q + r) / 10 == q && (10 * q + r) % 10 == r
  {
  }

  lemma DecimalStep(q: nat, r: nat)
    requires q > 0 && r < 10
    ensures Decimal(10 * q + r) == Decimal(q) + [Digit(r)]
  {
    LastDigit(q, r);
  }

  lemma NumeralStep(init: string, last: char)
    requires (forall i :: 0 <= i < |init| ==> IsDigit(init[i])) && IsDigit(last)
    ensures forall i :: 0 <= i < |init + [last]| ==> IsDigit((init + [last])[i])
    ensures Numeral(init + [last]) == 10 * Numeral(init) + (last as int - 48)
  {
    assert (init + [last])[..|init|] == init;
  }

  /** A numeral without a leading zero is the decimal text of its value. */
  lemma {:induction false} DecimalOfNumeral(d: string)
    requires d != "" && forall i :: 0 <= i < |d| ==> IsDigit(d[i])
    requires d[0] != '0'
    ensures Numeral(d) > 0 && Decimal(Numeral(d)) == d
  {
    var init, last := d[..|d| - 1], d[|d| - 1];
    assert d == init + [last] && IsDigit(last);
    var r := last as int - 48;
    assert Digit(r) == last;
    NumeralStep(init, last);
    if init == "" {
      SingleDigit(r);
    } else {
      DecimalOfNumeral(init);
      DecimalStep(Numeral(init), r);
      hide Decimal, Numeral, Digit;
    }
  }

  lemma SingleDigit(r: nat)
    requires r < 10
    ensures Numeral("") == 0 && Decimal(r) == [Digit(r)]
  {
  }

  lemma DigitsSound(s: string)
    requires ParseDigits(s).Some?
    ensures var (n, rest) := ParseDigits(s).value; s == Decimal(n) + rest
  {
    if s[0] == '0' {
      assert s == "0" + s[1..];
    } else {
      DecimalOfNumeral(s[..TakeDigits(s)]);
      assert s == s[..TakeDigits(s)] + s[TakeDigits(s)..];
    }
  }

  lemma NumberSound(s: string)
    requires ParseNumber(s).Some?
    ensures var (v, rest) := ParseNumber(s).value; v.Int? && s == PrintInt(v.n) + rest
  {
    hide Decimal, ParseDigits;
    if Starts(s, '-') {
      DigitsSound(s[1..]);
      assert s == "-" + s[1..];
    } else {
      DigitsSound(s);
    }
  }

  lemma TokenSound(s: string)
    requires ParseToken(s).Some?
    ensures var (v, rest) := ParseToken(s).value; (v.Null? || v.Bool? || v.Int?) && s == TokenText(v) + rest
  {
    hide PrintInt, ParseNumber;
    if "null" <= s || "true" <= s {
      assert s == s[..4] + s[4..];
    } else if "false" <= s {
      assert s == s[..5] + s[5..];
    } else {
      NumberSound(s);
    }
  }

  ghost predicate Reads(t: Tree, depth: nat, v: Json, s: string, rest: string) {
    WellFormed(t) && Good(t, depth) && Meaning(t) == v && s == Unparse(t) + rest
  }

  lemma {:induction false} ValueSound(s: string, depth: nat) returns (t: Tree)
    requires ParseValue(s, depth).Some?
    ensures Reads(t, depth, ParseValue(s, depth).value.0, s, ParseValue(s, depth).value.1)
    decreases |s|, 1
  {
    var pre := SplitSpace(s);
    var u := SkipSpace(s);
    DepthChecked(s, depth);
    if Starts(u, '[') {
      Headed(pre, "[", u, s);
      hide ParseValue, Reads, SkipSpace;
      t := ArraySound(s, depth, pre, u[1..]);
    } else if Starts(u, '{') {
      Headed(pre, "{", u, s);
      hide ParseValue, Reads, SkipSpace;
      t := ObjectSound(s, depth, pre, u[1..]);
    } else {
      t := LeafSound(s, depth, pre, u);
    }
  }

  lemma DepthChecked(s: string, depth: nat)
    ensures ParseValue(s, depth).Some? ==> depth <= MAX_DEPTH
  {
  }

  lemma Headed(pre: string, open: string, u: string, s: string)
    requires s == pre + u && u != "" && open == u[..1]
    ensures u == open + u[1..] && s == pre + (open + u[1..]) && |u[1..]| < |s|
  {
  }

  lemma LeafSound(s: string, depth: nat, pre: string, u: string) returns (t: Tree)
    requires ParseValue(s, depth).Some? && u == SkipSpace(s) && Spaces(pre) && s == pre + u
    requires !Starts(u, '[') && !Starts(u, '{')
    ensures Reads(t, depth, ParseValue(s, depth).value.0, s, ParseValue(s, depth).value.1)
  {
    hide SkipSpace;
    var (v, rest) := ParseValue(s, depth).value;
    if Starts(u, '"') {
      StringSound(u);
      var raw :| Closed(raw) && Unescape(raw) == Some(v.s) && u == "\"" + raw + "\"" + rest;
      t := TString(pre, raw);
      assert Unparse(t) + rest == pre + u;
    } else {
      TokenSound(u);
      t := Token(pre, v);
      assert Unparse(t) + rest == pre + u;
    }
  }

  lemma {:induction false} ArraySound(s: string, depth: nat, pre: string, body: string) returns (t: Tree)
    requires ParseValue(s, depth).Some? && depth <= MAX_DEPTH
    requires Spaces(pre) && s == pre + ("[" + body) && SkipSpace(s) == "[" + body && |body| < |s|
    ensures Reads(t, depth, ParseValue(s, depth).value.0, s, ParseValue(s, depth).value.1)
    decreases |s|, 0
  {
    OpensArray(s, body, depth);
    var inner := SplitSpace(body);
    var u := SkipSpace(body);
    var (v, rest) := ParseValue(s, depth).value;
    if Starts(u, ']') {
      t := TArray(pre, inner, []);
      EmptyArrayTree(pre, inner, depth);
      assert u == "]" + rest;
      hide ParseValue, ParseItems, SkipSpace, WellFormed, Good, Meaning, Unparse;
      OpenText(pre, "[", inner + "]", rest);
      assert inner + "]" + rest == inner + u;
    } else {
      hide ParseValue, ParseItems, SkipSpace;
      var items := ItemsSound(body, depth, []);
      t := TArray(pre, "", items);
      ArrayTree(pre, items, depth);
      OpenText(pre, "[", UnparseItems(items), rest);
      hide WellFormed, Good, Meaning, Unparse, UnparseItems, ItemValues;
      assert [] + ItemValues(items) == ItemValues(items);
    }
  }

  lemma EmptyArrayTree(pre: string, inner: string, depth: nat)
    requires Spaces(pre) && Spaces(inner) && depth <= MAX_DEPTH
    ensures var t := TArray(pre, inner, []);
      WellFormed(t) && Good(t, depth) && Meaning(t) == Arr([]) && Unparse(t) == pre + ("[" + (inner + "]"))
  {
    assert "[" + inner + "]" == "[" + (inner + "]");
  }

  lemma ArrayTree(pre: string, items: seq<Item>, depth: nat)
    requires Spaces(pre) && items != [] && depth <= MAX_DEPTH
    requires forall i :: 0 <= i < |items| ==> Sound(items[i], depth)
    ensures var t := TArray(pre, "", items);
      && WellFormed(t) && Good(t, depth) && Meaning(t) == Arr(ItemValues(items))
      && Unparse(t) == pre + ("[" + UnparseItems(items))
  {
    var t := TArray(pre, "", items);
    assert forall i :: 0 <= i < |items| ==> Sound(t.items[i], depth);
  }

  lemma ItemSteps(s: string, depth: nat, before: seq<Json>)
    requires ParseItems(s, depth, before).Some?
    ensures ParseValue(s, depth + 1).Some?
    ensures var (v, rest) := ParseValue(s, depth + 1).value;
      var u := SkipSpace(rest);
      if Starts(u, ']') then ParseItems(s, depth, before) == Some((Arr(before + [v]), u[1..]))
      else Starts(u, ',') && |u| <= |s| && ParseItems(s, depth, before) == ParseItems(u[1..], depth, before + [v])
  {
  }

  lemma ItemsCons(before: seq<Json>, first: Item, more: seq<Item>, v: Json)
    requires Meaning(first.tree) == v
    ensures before + ItemValues([first] + more) == before + [v] + ItemValues(more)
  {
    assert ([first] + more)[1..] == more;
  }

  ghost predicate Sound(item: Item, depth: nat) {
    WellFormed(item.tree) && Good(item.tree, depth + 1) && Spaces(item.post)
  }

  lemma {:induction false} ItemsSound(s: string, depth: nat, before: seq<Json>) returns (items: seq<Item>)
    requires ParseItems(s, depth, before).Some?
    ensures var (v, rest) := ParseItems(s, depth, before).value;
      && items != [] && s == UnparseItems(items) + rest && v == Arr(before + ItemValues(items))
      && forall i :: 0 <= i < |items| ==> Sound(items[i], depth)
    decreases |s|, 2
  {
    var t := ValueSound(s, depth + 1);
    var (v, rest) := ParseValue(s, depth + 1).value;
    var post := SplitSpace(rest);
    var u := SkipSpace(rest);
    var first := Item(t, post);
    ItemSteps(s, depth, before);
    assert Sound(first, depth) && Meaning(first.tree) == v;
    hide ParseValue, ParseItems, WellFormed, Good, Meaning, Unparse, SkipSpace, Sound;
    if Starts(u, ']') {
      items := [first];
      LastItem(first, before, v, s, rest, u);
    } else {
      var more := ItemsSound(u[1..], depth, before + [v]);
      items := [first] + more;
      ConsItem(first, more, before, v, s, rest, u, ParseItems(s, depth, before).value.1);
    }
  }

  lemma LastItem(first: Item, before: seq<Json>, v: Json, s: string, rest: string, u: string)
    requires Meaning(first.tree) == v && s == Unparse(first.tree) + rest && rest == first.post + u && Starts(u, ']')
    ensures s == UnparseItems([first]) + u[1..] && before + ItemValues([first]) == before + [v]
  {
    hide Unparse, Meaning;
    assert u == "]" + u[1..];
    ItemsText([first], u[1..], u);
    assert ItemValues([first]) == [v];
  }

  lemma ConsItem(
    first: Item, more: seq<Item>, before: seq<Json>, v: Json, s: string, rest: string, u: string, end: string)
    requires Meaning(first.tree) == v && s == Unparse(first.tree) + rest && rest == first.post + u && Starts(u, ',')
    requires more != [] && u[1..] == UnparseItems(more) + end
    ensures s == UnparseItems([first] + more) + end
    ensures before + ItemValues([first] + more) == before + [v] + ItemValues(more)
  {
    hide Unparse, Meaning, UnparseItems, ItemValues;
    var items := [first] + more;
    assert items[1..] == more && |items| > 1;
    assert u == "," + u[1..];
    ItemsText(items, end, u);
    ItemsCons(before, first, more, v);
  }

  lemma {:induction false} ObjectSound(s: string, depth: nat, pre: string, body: string) returns (t: Tree)
    requires ParseValue(s, depth).Some? && depth <= MAX_DEPTH
    requires Spaces(pre) && s == pre + ("{" + body) && SkipSpace(s) == "{" + body && |body| < |s|
    ensures Reads(t, depth, ParseValue(s, depth).value.0, s, ParseValue(s, depth).value.1)
    decreases |s|, 0
  {
    OpensObject(s, body, depth);
    var inner := SplitSpace(body);
    var u := SkipSpace(body);
    var (v, rest) := ParseValue(s, depth).value;
    if Starts(u, '}') {
      t := TObject(pre, inner, []);
      EmptyObjectTree(pre, inner, depth);
      assert u == "}" + rest;
      OpenText(pre, "{", inner + "}", rest);
      assert inner + "}" + rest == inner + u;
    } else {
      hide ParseValue, ParseMembers, MemberMap;
      var members := MembersSound(body, depth, map[]);
      t := TObject(pre, "", members);
      NoKeys();
      ObjectTree(pre, members, depth);
      OpenText(pre, "{", UnparseMembers(members), rest);
      hide WellFormed, Good, Meaning;
    }
  }

  lemma NoKeys()
    ensures var none: map<string, Json> := map[]; none.Keys == {}
  {
  }

  lemma EmptyObjectTree(pre: string, inner: string, depth: nat)
    requires Spaces(pre) && Spaces(inner) && depth <= MAX_DEPTH
    ensures var t := TObject(pre, inner, []);
      WellFormed(t) && Good(t, depth) && Meaning(t) == Obj(map[]) && Unparse(t) == pre + ("{" + (inner + "}"))
  {
    assert "{" + inner + "}" == "{" + (inner + "}");
  }

  lemma OpenText(a: string, b: string, c: string, d: string)
    ensures a + (b + c) + d == a + (b + (c + d))
  {
  }

  lemma ObjectTree(pre: string, members: seq<Member>, depth: nat)
    requires Spaces(pre) && members != [] && depth <= MAX_DEPTH && GoodMembers(members, depth, {})
    requires forall i :: 0 <= i < |members| ==> WellFormedMember(members[i])
    ensures var t := TObject(pre, "", members);
      && WellFormed(t) && Good(t, depth) && Meaning(t) == Obj(MemberMap(members, map[]))
      && Unparse(t) == pre + ("{" + UnparseMembers(members))
  {
    var t := TObject(pre, "", members);
    assert forall i :: 0 <= i < |members| ==> WellFormedMember(t.members[i]);
  }

  lemma MemberSteps(s: string, depth: nat, fields: map<string, Json>)
    requires ParseMembers(s, depth, fields).Some?
    ensures ParseString(SkipSpace(s)).Some?
    ensures var (key, afterKey) := ParseString(SkipSpace(s)).value;
      var t := SkipSpace(afterKey);
      key !in fields && Starts(t, ':') && ParseValue(t[1..], depth + 1).Some?
    ensures var (key, afterKey) := ParseString(SkipSpace(s)).value;
      var (v, rest) := ParseValue(SkipSpace(afterKey)[1..], depth + 1).value;
      var u := SkipSpace(rest);
      if Starts(u, '}') then ParseMembers(s, depth, fields) == Some((Obj(fields[key := v]), u[1..]))
      else
        && Starts(u, ',') && |u| <= |s|
        && ParseMembers(s, depth, fields) == ParseMembers(u[1..], depth, fields[key := v])
  {
  }

  function MemberText(m: Member): string {
    m.keyPre + "\"" + m.key + "\"" + m.keyPost + ":" + Unparse(m.tree) + m.post
  }

  /** The member that a successful parse reads first. */
  ghost predicate FirstMember(m: Member, s: string, depth: nat, u: string, key: string, v: Json) {
    && WellFormedMember(m) && s == MemberText(m) + u
    && Unescape(m.key) == Some(key) && Good(m.tree, depth + 1) && Meaning(m.tree) == v
  }

  lemma {:induction false} MemberSound(s: string, depth: nat, fields: map<string, Json>) returns (m: Member)
    requires ParseMembers(s, depth, fields).Some?
    ensures var (key, afterKey) := ParseString(SkipSpace(s)).value;
      var (v, rest) := ParseValue(SkipSpace(afterKey)[1..], depth + 1).value;
      FirstMember(m, s, depth, SkipSpace(rest), key, v)
    decreases |s|, 2
  {
    MemberSteps(s, depth, fields);
    var keyPre := SplitSpace(s);
    var quoted := SkipSpace(s);
    StringSound(quoted);
    var (key, afterKey) := ParseString(quoted).value;
    var raw :| Closed(raw) && Unescape(raw) == Some(key) && quoted == "\"" + raw + "\"" + afterKey;
    var keyPost := SplitSpace(afterKey);
    var value := SkipSpace(afterKey)[1..];
    assert SkipSpace(afterKey) == ":" + value;
    var t := ValueSound(value, depth + 1);
    var (v, rest) := ParseValue(value, depth + 1).value;
    var post := SplitSpace(rest);
    m := Member(keyPre, raw, keyPost, t, post);
    Assemble(keyPre, raw, keyPost, Unparse(t), post, SkipSpace(rest), s, quoted, afterKey, value, rest);
  }

  lemma Assemble(
    a: string, b: string, c: string, d: string, e: string, u: string,
    s: string, quoted: string, afterKey: string, value: string, rest: string)
    requires s == a + quoted && quoted == "\"" + b + "\"" + afterKey && afterKey == c + (":" + value)
    requires value == d + rest && rest == e + u
    ensures s == a + "\"" + b + "\"" + c + ":" + d + e + u
  {
    assert value == d + e + u;
    assert a + ("\"" + b + "\"" + (c + (":" + value))) == a + "\"" + b + "\"" + c + ":" + value;
  }

  lemma Join(a: string, b: string, c: string, s: string, u: string)
    requires s == a + u && u == b + c
    ensures s == a + b + c
  {
  }

  lemma UnparseCons(m: Member, more: seq<Member>)
    ensures UnparseMembers([m] + more) == MemberText(m) + if more == [] then "}" else "," + UnparseMembers(more)
  {
    assert ([m] + more)[1..] == more;
  }

  lemma {:induction false} MembersSound(s: string, depth: nat, fields: map<string, Json>) returns (members: seq<Member>)
    requires ParseMembers(s, depth, fields).Some?
    ensures var (v, rest) := ParseMembers(s, depth, fields).value;
      && members != [] && s == UnparseMembers(members) + rest && v == Obj(MemberMap(members, fields))
      && GoodMembers(members, depth, fields.Keys)
      && forall i :: 0 <= i < |members| ==> WellFormedMember(members[i])
    decreases |s|, 3
  {
    var m := MemberSound(s, depth, fields);
    MemberSteps(s, depth, fields);
    var (key, afterKey) := ParseString(SkipSpace(s)).value;
    var (v, rest) := ParseValue(SkipSpace(afterKey)[1..], depth + 1).value;
    var u := SkipSpace(rest);
    var next := fields[key := v];
    assert next.Keys == fields.Keys + {key};
    if Starts(u, '}') {
      members := [m];
      MembersCons(m, [], depth, fields, key, v);
      UnparseCons(m, []);
      assert u == "}" + u[1..];
      Join(MemberText(m), "}", u[1..], s, u);
      assert [m] + [] == members;
    } else {
      var more := MembersSound(u[1..], depth, next);
      var end := ParseMembers(s, depth, fields).value.1;
      members := [m] + more;
      MembersCons(m, more, depth, fields, key, v);
      UnparseCons(m, more);
      Comma(u, UnparseMembers(more), end);
      Join(MemberText(m), "," + UnparseMembers(more), end, s, u);
    }
  }

  lemma Comma(u: string, a: string, b: string)
    requires Starts(u, ',') && u[1..] == a + b
    ensures u == "," + a + b
  {
    assert u == [u[0]] + u[1..];
  }

  lemma MembersCons(m: Member, more: seq<Member>, depth: nat, fields: map<string, Json>, key: string, v: Json)
    requires Unescape(m.key) == Some(key) && key !in fields && Good(m.tree, depth + 1) && Meaning(m.tree) == v
    ensures GoodMembers([m] + more, depth, fields.Keys) == GoodMembers(more, depth, fields.Keys + {key})
    ensures MemberMap([m] + more, fields) == MemberMap(more, fields[key := v])
    ensures GoodMembers([], depth, fields.Keys + {key}) && MemberMap([], fields[key := v]) == fields[key := v]
  {
    assert ([m] + more)[1..] == more;
  }
}
