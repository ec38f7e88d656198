/** The laws of the ledger codec: acceptance, repeated keys, round trip, injectivity. */
module JsonLaws {
  import opened Common
  import opened Text
  import opened Json
  import opened JsonText
  import opened JsonGrammar
  import opened JsonCodec

  // ---------- acceptance ----------

  /** `text` is a good tree meaning `v`, up to trailing whitespace. */
  ghost predicate Denotes(text: string, v: Json) {
    exists t, w :: Spaces(w) && Reads(t, 0, v, text, w)
  }

  lemma OnlySpaces(w: string)
    ensures SkipSpace(w) == "" <==> Spaces(w)
  {
    var pre := SplitSpace(w);
    if Spaces(w) {
      SkipSpaces(w, "");
      assert w + "" == w;
    } else {
      assert pre + "" == pre;
    }
  }

  lemma EndsSpaces(w: string)
    requires Spaces(w)
    ensures Ends(w)
  {
  }

  /** The parser accepts exactly the bounded texts of good trees whose value prints within limits. */
  lemma AcceptsExactly(text: string, v: Json)
    ensures Parse(text) == Some(v) <==> |Utf8(text)| <= MAX_BYTES && Canonical(v).Some? && Denotes(text, v)
  {
    hide Utf8;
    if Parse(text) == Some(v) {
      var rest := ParseValue(text, 0).value.1;
      var t := ValueSound(text, 0);
      OnlySpaces(rest);
      assert Reads(t, 0, v, text, rest);
    }
    if Denotes(text, v) {
      var t, w :| Spaces(w) && Reads(t, 0, v, text, w);
      EndsSpaces(w);
      ValueReads(t, 0, w);
      OnlySpaces(w);
    }
  }

  // ---------- repeated keys ----------

  /** Somewhere, at any nesting, an object names the same key twice, spelled alike or not. */
  ghost predicate Repeats(t: Tree)
    decreases t
  {
    match t
    case TArray(pre, inner, items) => exists i :: 0 <= i < |items| && Repeats(items[i].tree)
    case TObject(pre, inner, members) =>
      || (exists i, j :: 0 <= i < j < |members| && Unescape(members[i].key) == Unescape(members[j].key))
      || (exists i :: 0 <= i < |members| && Repeats(members[i].tree))
    case _ => false
  }

  lemma {:induction false} RepeatsIsBad(t: Tree, depth: nat)
    requires Repeats(t)
    ensures !Good(t, depth)
    decreases t
  {
    match t
    case TArray(pre, inner, items) =>
      var i :| 0 <= i < |items| && Repeats(items[i].tree);
      RepeatsIsBad(items[i].tree, depth + 1);
    case TObject(pre, inner, members) =>
      if GoodMembers(members, depth, {}) {
        GoodMembersMean(members, depth, {});
        if i :| 0 <= i < |members| && Repeats(members[i].tree) {
          RepeatsIsBad(members[i].tree, depth + 1);
        }
      }
  }

  /** The recursive check of a member list, said in one breath. */
  lemma {:induction false} GoodMembersMean(members: seq<Member>, depth: nat, seen: set<string>)
    requires GoodMembers(members, depth, seen)
    ensures forall i :: 0 <= i < |members| ==>
      Unescape(members[i].key).Some? && Name(members[i].key) !in seen && Good(members[i].tree, depth + 1)
    ensures forall i, j :: 0 <= i < j < |members| ==> Unescape(members[i].key) != Unescape(members[j].key)
    decreases |members|
  {
    if members == [] {
    } else {
      var rest := members[1..];
      GoodMembersMean(rest, depth, seen + {Name(members[0].key)});
      forall i, j | 0 <= i < j < |members|
        ensures Unescape(members[i].key) != Unescape(members[j].key)
      {
        assert members[j] == rest[j - 1];
        if i > 0 {
          assert members[i] == rest[i - 1];
        }
      }
      assert forall i :: 0 < i < |members| ==> members[i] == rest[i - 1];
    }
  }

  lemma RepeatedKeyRejected(t: Tree, w: string)
    requires WellFormed(t) && Repeats(t) && Spaces(w)
    ensures Parse(Unparse(t) + w) == None
  {
    hide Utf8;
    EndsSpaces(w);
    ValueReads(t, 0, w);
    RepeatsIsBad(t, 0);
  }

  // ---------- the canonical text as a tree ----------

  lemma EscapedCharReads(c: char, s: string)
    ensures EscapeChar(c) != ""
    ensures FirstChar(EscapeChar(c) + s) == Some((c, |EscapeChar(c)|))
    ensures Closed(s) ==> Closed(EscapeChar(c) + s)
  {
    var e := EscapeChar(c);
    var all := e + s;
    assert all[..|e|] == e && all[|e|..] == s;
    if c == '"' || c == '\\' || c as int in {8, 9, 10, 12, 13} {
      assert all[0] == '\\' && all[1] == e[1] && all[2..] == s;
    } else if c as int < 32 {
      ControlReads(c, s);
    } else {
      assert all[0] == c && all[1..] == s;
    }
  }

  lemma ControlReads(c: char, s: string)
    requires c as int < 32 && c as int !in {8, 9, 10, 12, 13}
    ensures FirstChar(EscapeChar(c) + s) == Some((c, |EscapeChar(c)|))
    ensures Closed(s) ==> Closed(EscapeChar(c) + s)
  {
    var e := EscapeChar(c);
    var all := e + s;
    var h, l := c as int / 16, c as int % 16;
    assert e == ['\\', 'u', '0', '0', HexDigit(h), HexDigit(l)];
    assert all[0] == '\\' && all[1] == 'u';
    var u := all[2..];
    assert u[0] == '0' && u[1] == '0' && u[2] == HexDigit(h) && u[3] == HexDigit(l);
    assert HexValue(HexDigit(h)) == Some(h) && HexValue(HexDigit(l)) == Some(l);
    assert HexValue('0') == Some(0);
    assert Hex4(u) == Some(c as int);
    if Closed(s) {
      var t1, t2, t3, t4 := all[2..], all[3..], all[4..], all[5..];
      assert all[6..] == s;
      assert t4[1..] == s && t3[1..] == t4 && t2[1..] == t3 && t1[1..] == t2;
      assert Closed(t4) && Closed(t3) && Closed(t2) && Closed(t1);
    }
  }

  lemma {:induction false} EscapeRoundTrip(s: string)
    ensures Closed(Escape(s)) && Unescape(Escape(s)) == Some(s)
  {
    if s == "" {
    } else {
      EscapeRoundTrip(s[1..]);
      EscapedCharReads(s[0], Escape(s[1..]));
      var all := Escape(s);
      assert all[|EscapeChar(s[0])|..] == Escape(s[1..]);
      assert [s[0]] + s[1..] == s;
    }
  }

  ghost function TreeOf(v: Json): Tree
    decreases v, 1
  {
    match v
    case Str(s) => TString("", Escape(s))
    case Arr(items) => TArray("", "", TreesOf(items))
    case Obj(fields) => TObject("", "", MembersOf(v, SortedKeys(fields.Keys)))
    case _ => Token("", v)
  }

  ghost function TreesOf(items: seq<Json>): seq<Item>
    decreases items, 0
  {
    if items == [] then [] else [Item(TreeOf(items[0]), "")] + TreesOf(items[1..])
  }

  ghost function MembersOf(v: Json, keys: seq<string>): seq<Member>
    requires v.Obj? && Elements(keys) <= v.fields.Keys
    decreases v, 0, |keys|
  {
    if keys == [] then []
    else
      assert keys[0] in Elements(keys);
      assert forall k :: k in keys[1..] ==> k in Elements(keys);
      [Member("", Escape(keys[0]), "", TreeOf(v.fields[keys[0]]), "")] + MembersOf(v, keys[1..])
  }

  // The text of the tree is the printed text. (A float has no canonical text; both print nothing.)

  lemma {:induction false} TreeText(v: Json)
    ensures Unparse(TreeOf(v)) == Print(v)
    decreases v, 1
  {
    match v
    case Arr(items) =>
      if items != [] {
        ItemsText(items);
        assert "" + ("[" + UnparseItems(TreesOf(items))) == "[" + PrintItems(items) + "]";
      }
    case Obj(fields) => ObjectText(v);
    case _ =>
  }

  lemma {:induction false} ItemsText(items: seq<Json>)
    requires items != []
    ensures TreesOf(items) != [] && UnparseItems(TreesOf(items)) == PrintItems(items) + "]"
    decreases items, 0
  {
    var more := TreesOf(items[1..]);
    TreeText(items[0]);
    assert TreesOf(items)[1..] == more;
    if |items| == 1 {
    } else {
      ItemsText(items[1..]);
    }
  }

  lemma {:induction false} ObjectText(v: Json)
    requires v.Obj?
    ensures Unparse(TreeOf(v)) == Print(v)
    decreases v, 0
  {
    var keys := SortedKeys(v.fields.Keys);
    if keys != [] {
      MembersText(v, keys);
    }
    ObjectTree(v);
    ObjectTextOpens(v, MembersOf(v, keys), keys);
  }

  lemma ObjectTextOpens(v: Json, members: seq<Member>, keys: seq<string>)
    requires v.Obj? && keys == SortedKeys(v.fields.Keys)
    requires if keys == [] then members == []
      else members != [] && UnparseMembers(members) == PrintFields(v, keys) + "}"
    ensures Unparse(TObject("", "", members)) == Print(v)
  {
    var fields := if keys == [] then "" else PrintFields(v, keys);
    PrintOpens(v, keys, fields);
    TreeOpens(members);
    hide UnparseMembers, PrintFields, Unparse, Print;
    Bracketed("", "{", fields, "}");
  }

  lemma PrintOpens(v: Json, keys: seq<string>, fields: string)
    requires v.Obj? && keys == SortedKeys(v.fields.Keys)
    requires fields == if keys == [] then "" else PrintFields(v, keys)
    ensures Print(v) == "{" + fields + "}"
  {
  }

  lemma TreeOpens(members: seq<Member>)
    ensures Unparse(TObject("", "", members)) ==
      "" + ("{" + if members == [] then "" + "}" else UnparseMembers(members))
  {
    hide UnparseMembers;
  }

  lemma Bracketed(none: string, open: string, body: string, close: string)
    requires none == ""
    ensures none + (open + (body + close)) == open + body + close
  {
  }

  lemma {:induction false} MembersText(v: Json, keys: seq<string>)
    requires v.Obj? && keys != [] && Elements(keys) <= v.fields.Keys
    ensures MembersOf(v, keys) != [] && UnparseMembers(MembersOf(v, keys)) == PrintFields(v, keys) + "}"
    decreases v, 0, |keys|
  {
    var k := keys[0];
    assert k in Elements(keys);
    assert forall x :: x in keys[1..] ==> x in Elements(keys);
    TreeText(v.fields[k]);
    var more := MembersOf(v, keys[1..]);
    assert MembersOf(v, keys)[1..] == more;
    if |keys| > 1 {
      MembersText(v, keys[1..]);
      CanonicalMember(Escape(k), Print(v.fields[k]), "," + (PrintFields(v, keys[1..]) + "}"));
      CommaText(Quote(k) + ":" + Print(v.fields[k]), PrintFields(v, keys[1..]));
    } else {
      CanonicalMember(Escape(k), Print(v.fields[k]), "}");
    }
  }

  lemma CanonicalMember(e: string, p: string, last: string)
    ensures "" + "\"" + e + "\"" + "" + ":" + p + "" + last == "\"" + e + "\"" + ":" + p + last
  {
  }

  lemma CommaText(a: string, b: string)
    ensures a + "," + b + "}" == a + ("," + (b + "}"))
  {
  }

  // The tree is good and means the value.

  lemma {:induction false} TreeMeans(v: Json, depth: nat)
    requires Fits(v, depth)
    ensures WellFormed(TreeOf(v)) && Good(TreeOf(v), depth) && Meaning(TreeOf(v)) == v
    decreases v, 1
  {
    match v
    case Str(s) => EscapeRoundTrip(s);
    case Arr(items) => ItemsMean(items, depth);
    case Obj(fields) => ObjectMeans(v, depth);
    case _ =>
  }

  lemma {:induction false} ItemsMean(items: seq<Json>, depth: nat)
    requires forall i :: 0 <= i < |items| ==> Fits(items[i], depth + 1)
    ensures |TreesOf(items)| == |items| && ItemValues(TreesOf(items)) == items
    ensures forall i :: 0 <= i < |items| ==>
      WellFormed(TreesOf(items)[i].tree) && Good(TreesOf(items)[i].tree, depth + 1) && Spaces(TreesOf(items)[i].post)
    decreases items, 0
  {
    if items == [] {
    } else {
      TreeMeans(items[0], depth + 1);
      TreesCons(items);
      assert items == [items[0]] + items[1..];
      hide TreeOf, TreesOf, ItemValues, Meaning, WellFormed, Good, Fits, Spaces;
      ItemsMean(items[1..], depth);
    }
  }

  lemma TreesCons(items: seq<Json>)
    requires items != []
    ensures |TreesOf(items)| == 1 + |TreesOf(items[1..])|
    ensures TreesOf(items)[0].tree == TreeOf(items[0]) && Spaces(TreesOf(items)[0].post)
    ensures forall i :: 0 < i < |TreesOf(items)| ==> TreesOf(items)[i] == TreesOf(items[1..])[i - 1]
    ensures ItemValues(TreesOf(items)) == [Meaning(TreeOf(items[0]))] + ItemValues(TreesOf(items[1..]))
  {
    hide Meaning, TreeOf;
    assert TreesOf(items)[1..] == TreesOf(items[1..]);
  }

  lemma {:induction false} ObjectMeans(v: Json, depth: nat)
    requires v.Obj? && Fits(v, depth)
    ensures WellFormed(TreeOf(v)) && Good(TreeOf(v), depth) && Meaning(TreeOf(v)) == v
    decreases v, 0
  {
    var keys := SortedKeys(v.fields.Keys);
    var members := MembersOf(v, keys);
    AscendingDistinct(keys);
    ObjectTree(v);
    forall k | k in v.fields
      ensures WellFormed(TreeOf(v.fields[k])) && Good(TreeOf(v.fields[k]), depth + 1)
      ensures Meaning(TreeOf(v.fields[k])) == v.fields[k]
    {
      TreeMeans(v.fields[k], depth + 1);
    }
    MembersGood(v, keys, depth, {});
    MembersMeanFields(v, keys, map[]);
    ObjectWellFormed(members);
    ObjectGood(v, keys, depth);
  }

  /** The tree of an object, and what is left to show of it. */
  lemma ObjectTree(v: Json)
    requires v.Obj?
    ensures TreeOf(v) == TObject("", "", MembersOf(v, SortedKeys(v.fields.Keys)))
  {
  }

  lemma ObjectGood(v: Json, keys: seq<string>, depth: nat)
    requires v.Obj? && depth <= MAX_DEPTH && keys == SortedKeys(v.fields.Keys)
    requires GoodMembers(MembersOf(v, keys), depth, {})
    requires var read := MemberMap(MembersOf(v, keys), map[]);
      read.Keys == Elements(keys) && forall k :: k in read ==> k in keys && read[k] == v.fields[k]
    ensures Good(TObject("", "", MembersOf(v, keys)), depth)
    ensures Meaning(TObject("", "", MembersOf(v, keys))) == v
  {
    hide MembersOf, GoodMembers, MemberMap;
    assert MemberMap(MembersOf(v, keys), map[]) == v.fields;
  }

  lemma ObjectWellFormed(members: seq<Member>)
    requires forall i :: 0 <= i < |members| ==> WellFormedMember(members[i])
    ensures WellFormed(TObject("", "", members))
  {
    var t := TObject("", "", members);
    assert forall i :: 0 <= i < |members| ==> WellFormedMember(t.members[i]);
  }

  lemma {:induction false} MembersGood(v: Json, keys: seq<string>, depth: nat, seen: set<string>)
    requires v.Obj? && Elements(keys) <= v.fields.Keys && Distinct(keys)
    requires forall k :: k in v.fields ==> WellFormed(TreeOf(v.fields[k])) && Good(TreeOf(v.fields[k]), depth + 1)
    requires forall k :: k in keys ==> k !in seen
    ensures forall i :: 0 <= i < |MembersOf(v, keys)| ==> WellFormedMember(MembersOf(v, keys)[i])
    ensures GoodMembers(MembersOf(v, keys), depth, seen)
    decreases |keys|
  {
    if keys == [] {
    } else {
      var k := keys[0];
      assert k in Elements(keys);
      assert forall x :: x in keys[1..] ==> x in Elements(keys);
      EscapeRoundTrip(k);
      hide Escape, Unescape, Good, WellFormed, TreeOf;
      MembersGood(v, keys[1..], depth, seen + {k});
      assert MembersOf(v, keys)[1..] == MembersOf(v, keys[1..]);
      assert MembersOf(v, keys)[0] == Member("", Escape(k), "", TreeOf(v.fields[k]), "");
    }
  }

  lemma AscendingDistinct(keys: seq<string>)
    requires Ascending(keys)
    ensures Distinct(keys)
  {
    forall i, j | 0 <= i < j < |keys|
      ensures keys[i] != keys[j]
    {
      LessTotal(keys[i], keys[j]);
    }
  }

  lemma {:induction false} MembersMeanFields(v: Json, keys: seq<string>, before: map<string, Json>)
    requires v.Obj? && Elements(keys) <= v.fields.Keys && Distinct(keys)
    requires forall k :: k in v.fields ==> Meaning(TreeOf(v.fields[k])) == v.fields[k]
    ensures var read := MemberMap(MembersOf(v, keys), before);
      && read.Keys == before.Keys + Elements(keys)
      && forall k :: k in read ==> read[k] == if k in keys then v.fields[k] else before[k]
    decreases |keys|
  {
    if keys == [] {
    } else {
      var k, rest := keys[0], keys[1..];
      ElementsSplit(keys);
      FirstMemberMeans(v, keys, before);
      assert Distinct(rest);
      hide MemberMap, MembersOf, Meaning, TreeOf;
      MembersMeanFields(v, rest, before[k := v.fields[k]]);
    }
  }

  lemma ElementsSplit(keys: seq<string>)
    requires keys != []
    ensures Elements(keys) == {keys[0]} + Elements(keys[1..])
    ensures forall k :: k in keys <==> k == keys[0] || k in keys[1..]
  {
    assert forall k :: k in keys[1..] ==> k in keys;
    assert forall k :: k in keys <==> k in [keys[0]] + keys[1..] by {
      assert keys == [keys[0]] + keys[1..];
    }
  }

  lemma FirstMemberMeans(v: Json, keys: seq<string>, before: map<string, Json>)
    requires v.Obj? && keys != [] && Elements(keys) <= v.fields.Keys
    requires keys[0] in v.fields && Elements(keys[1..]) <= v.fields.Keys
    requires Meaning(TreeOf(v.fields[keys[0]])) == v.fields[keys[0]]
    ensures MemberMap(MembersOf(v, keys), before) ==
      MemberMap(MembersOf(v, keys[1..]), before[keys[0] := v.fields[keys[0]]])
  {
    EscapeRoundTrip(keys[0]);
    assert MembersOf(v, keys)[1..] == MembersOf(v, keys[1..]);
  }

  // ---------- round trip and injectivity ----------

  /** Parsing what the printer accepts and prints gives the value back. */
  lemma RoundTrip(v: Json)
    requires Canonical(v).Some?
    ensures Parse(Canonical(v).value) == Some(v)
  {
    hide Utf8;
    TreeMeans(v, 0);
    TreeText(v);
    var text := Print(v);
    assert text + "" == text;
    assert Reads(TreeOf(v), 0, v, text, "") && Spaces("");
    AcceptsExactly(text, v);
  }

  /** Different values have different canonical texts. */
  lemma CanonicalInjective(v: Json, w: Json)
    requires Canonical(v).Some? && Canonical(v) == Canonical(w)
    ensures v == w
  {
    RoundTrip(v);
    RoundTrip(w);
  }

  /** Whatever layout and escapes a text used, its value has one canonical text, which parses alike. */
  lemma ParseThenPrint(text: string)
    requires Parse(text).Some?
    ensures Canonical(Parse(text).value).Some?
    ensures Parse(Canonical(Parse(text).value).value) == Parse(text)
  {
    RoundTrip(Parse(text).value);
  }
}
