/** `canonical_json` (src/ledger.rs) as it runs: normalise and print, member by member. */
module JsonPrinter {
  import opened Common
  import opened Text
  import opened Json
  import opened JsonText

  /** Printing one more item after a nonempty list. */
  lemma {:induction false} ItemsExtend(items: seq<Json>, v: Json)
    ensures PrintItems(items + [v]) == if items == [] then Print(v) else PrintItems(items) + "," + Print(v)
    decreases |items|
  {
    var all := items + [v];
    if items == [] {
      assert all == [v];
    } else {
      var rest := items[1..];
      assert all[1..] == rest + [v];
      ItemsExtend(rest, v);
      if rest != [] {
        JoinLists(Print(items[0]), PrintItems(rest), Print(v));
      } else {
        assert items == [items[0]];
      }
    }
  }

  lemma JoinLists(first: string, rest: string, last: string)
    ensures first + "," + (rest + "," + last) == first + "," + rest + "," + last
  {
  }

  ghost function PrintMember(v: Json, key: string): string
    requires v.Obj? && key in v.fields
  {
    Quote(key) + ":" + Print(v.fields[key])
  }

  lemma {:induction false} FieldsExtend(v: Json, keys: seq<string>, key: string)
    requires v.Obj? && Elements(keys) <= v.fields.Keys && key in v.fields
    ensures Elements(keys + [key]) <= v.fields.Keys
    ensures PrintFields(v, keys + [key]) ==
      if keys == [] then PrintMember(v, key) else PrintFields(v, keys) + "," + PrintMember(v, key)
    decreases |keys|
  {
    hide Print, Quote;
    var all := keys + [key];
    ElementsAppend(keys, [key]);
    assert Elements([key]) == {key};
    if keys == [] {
      assert all == [key];
    } else {
      var rest := keys[1..];
      assert keys[0] in Elements(keys) && all[0] == keys[0];
      assert forall k :: k in rest ==> k in Elements(keys);
      assert all[1..] == rest + [key];
      FieldsExtend(v, rest, key);
      if rest != [] {
        JoinLists(PrintMember(v, keys[0]), PrintFields(v, rest), PrintMember(v, key));
      } else {
        assert keys == [keys[0]];
      }
    }
  }

  /** Prints a value found at `depth`, or refuses it. */
  method PrintValue(v: Json, depth: nat) returns (text: Option<string>)
    ensures text == if Fits(v, depth) then Some(Print(v)) else None
    decreases v, 2
  {
    if depth > MAX_DEPTH {
      return None;
    }
    match v
    case Null => text := Some("null");
    case Bool(b) => text := Some(if b then "true" else "false");
    case Int(n) => text := if -MAX_INTEGER <= n <= MAX_INTEGER then Some(PrintInt(n)) else None;
    case Float(r) => text := None;
    case Str(s) => text := Some(Quote(s));
    case Arr(items) => text := PrintArray(v, depth);
    case Obj(fields) => text := PrintObject(v, depth);
  }

  lemma ArrayParts(v: Json, depth: nat)
    requires v.Arr? && depth <= MAX_DEPTH
    ensures Fits(v, depth) <==> forall i :: 0 <= i < |v.items| ==> Fits(v.items[i], depth + 1)
    ensures Print(v) == "[" + PrintItems(v.items) + "]"
  {
    hide PrintItems;
  }

  lemma NextItem(items: seq<Json>, n: nat)
    requires n < |items|
    ensures PrintItems(items[..n + 1]) ==
      if n == 0 then Print(items[n]) else PrintItems(items[..n]) + "," + Print(items[n])
  {
    hide Print, PrintItems;
    assert items[..n + 1] == items[..n] + [items[n]];
    ItemsExtend(items[..n], items[n]);
  }

  lemma ItemsEnds(items: seq<Json>)
    ensures PrintItems(items[..0]) == "" && PrintItems(items[..|items|]) == PrintItems(items)
  {
    hide Print;
    assert items[..|items|] == items;
  }

  method PrintArray(v: Json, depth: nat) returns (text: Option<string>)
    requires v.Arr? && depth <= MAX_DEPTH
    ensures text == if Fits(v, depth) then Some(Print(v)) else None
    decreases v, 0
  {
    hide Print, PrintItems, Fits;
    ArrayParts(v, depth);
    ItemsEnds(v.items);
    var inner := "";
    for n := 0 to |v.items|
      invariant forall i :: 0 <= i < n ==> Fits(v.items[i], depth + 1)
      invariant inner == PrintItems(v.items[..n])
    {
      var item := PrintValue(v.items[n], depth + 1);
      if item.None? {
        return None;
      }
      NextItem(v.items, n);
      inner := if n == 0 then item.value else inner + "," + item.value;
    }
    return Some("[" + inner + "]");
  }

  lemma FitsObject(v: Json, depth: nat, keys: seq<string>)
    requires v.Obj? && Elements(keys) == v.fields.Keys
    ensures forall i :: 0 <= i < |keys| ==> keys[i] in v.fields
    ensures Fits(v, depth) <==>
      depth <= MAX_DEPTH && forall i :: 0 <= i < |keys| ==> keys[i] in v.fields && Fits(v.fields[keys[i]], depth + 1)
  {
    forall i | 0 <= i < |keys|
      ensures keys[i] in v.fields
    {
      assert keys[i] in Elements(keys);
    }
    forall k | k in v.fields
      ensures exists i :: 0 <= i < |keys| && keys[i] == k
    {
      assert k in Elements(keys);
    }
  }

  ghost predicate PrintedUpTo(v: Json, keys: seq<string>, n: nat, inner: string)
    requires v.Obj? && n <= |keys|
  {
    Elements(keys[..n]) <= v.fields.Keys && inner == PrintFields(v, keys[..n])
  }

  lemma PrintedMore(v: Json, keys: seq<string>, n: nat, inner: string)
    requires v.Obj? && n < |keys| && keys[n] in v.fields && PrintedUpTo(v, keys, n, inner)
    ensures PrintedUpTo(v, keys, n + 1, (if n == 0 then "" else inner + ",") + PrintMember(v, keys[n]))
  {
    assert keys[..n + 1] == keys[..n] + [keys[n]];
    FieldsExtend(v, keys[..n], keys[n]);
  }

  lemma PrintedAll(v: Json, keys: seq<string>, inner: string)
    requires v.Obj? && keys == SortedKeys(v.fields.Keys) && PrintedUpTo(v, keys, |keys|, inner)
    ensures Print(v) == "{" + inner + "}"
  {
    assert keys[..|keys|] == keys;
  }

  method PrintMembers(v: Json, keys: seq<string>, depth: nat) returns (inner: Option<string>)
    requires v.Obj? && Elements(keys) <= v.fields.Keys && depth <= MAX_DEPTH
    ensures forall i :: 0 <= i < |keys| ==> keys[i] in v.fields
    ensures inner.Some? <==> forall i :: 0 <= i < |keys| ==> Fits(v.fields[keys[i]], depth + 1)
    ensures inner.Some? ==> PrintedUpTo(v, keys, |keys|, inner.value)
    decreases v, 0
  {
    var text := "";
    assert PrintedUpTo(v, keys, 0, text);
    assert forall i :: 0 <= i < |keys| ==> keys[i] in Elements(keys);
    hide Print, PrintFields, Fits, Quote, PrintedUpTo, Elements;
    for n := 0 to |keys|
      invariant forall i :: 0 <= i < n ==> Fits(v.fields[keys[i]], depth + 1)
      invariant PrintedUpTo(v, keys, n, text)
    {
      var member := PrintValue(v.fields[keys[n]], depth + 1);
      if member.None? {
        return None;
      }
      PrintedMore(v, keys, n, text);
      text := (if n == 0 then "" else text + ",") + (Quote(keys[n]) + ":" + member.value);
    }
    return Some(text);
  }

  method PrintObject(v: Json, depth: nat) returns (text: Option<string>)
    requires v.Obj? && depth <= MAX_DEPTH
    ensures text == if Fits(v, depth) then Some(Print(v)) else None
    decreases v, 1
  {
    var keys := SortKeys(v.fields.Keys);
    var inner := PrintMembers(v, keys, depth);
    FitsObject(v, depth, keys);
    hide Print, PrintFields, Fits, SortedKeys, PrintedUpTo, Elements;
    if inner.None? {
      return None;
    }
    PrintedAll(v, keys, inner.value);
    return Some("{" + inner.value + "}");
  }

  /** The canonical text, or no text: nesting, numbers or size out of bounds. */
  method CanonicalJson(v: Json) returns (text: Option<string>)
    ensures text == Canonical(v)
  {
    text := PrintValue(v, 0);
    if text.Some? && |Utf8(text.value)| > MAX_BYTES {
      return None;
    }
  }
}
