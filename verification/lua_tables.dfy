/** JSON values as Lua values and back (src/runtime.rs, `json_to_lua` and `lua_to_json`). */
module LuaTables {
  import opened Common
  import opened Text
  import opened Json

  const MIN_I64: int := -0x8000_0000_0000_0000
  const MAX_I64: int := 0x7FFF_FFFF_FFFF_FFFF

  /** `ForeignKey` stands for booleans, floats and other keys that are neither text nor integers. */
  datatype LuaKey = IntKey(n: int) | TextKey(s: string) | ForeignKey(id: nat)

  /**
   A Lua value as the conversion sees it: a table as the sequence that iterating it yields,
   in whatever order, and `Foreign` for functions and the like.
   */
  datatype Lua =
    | Nil
    | Boolean(b: bool)
    | Integer(i: int)
    | Number(r: real)
    | Text(s: string)
    | BadText
    | Table(pairs: seq<Entry>)
    | Foreign

  datatype Entry = Entry(key: LuaKey, value: Lua)

  // ---------- from Lua to JSON ----------

  function Keys(pairs: seq<Entry>): seq<LuaKey> {
    if pairs == [] then [] else [pairs[0].key] + Keys(pairs[1..])
  }

  function Highest(keys: seq<LuaKey>): int
    requires keys != [] && forall i :: 0 <= i < |keys| ==> keys[i].IntKey?
  {
    if |keys| == 1 || keys[0].n > Highest(keys[1..]) then keys[0].n else Highest(keys[1..])
  }

  /** The array test: positive integer keys, the highest of them the number of entries. */
  predicate IsArray(keys: seq<LuaKey>) {
    && keys != []
    && (forall i :: 0 <= i < |keys| ==> keys[i].IntKey? && keys[i].n > 0)
    && Highest(keys) == |keys|
  }

  /** A table entry's key as an object member name. */
  function MemberName(key: LuaKey): Option<string> {
    match key
    case TextKey(s) => Some(s)
    case IntKey(n) => Some(if n < 0 then "-" + Decimal(-n) else Decimal(n))
    case ForeignKey(id) => None
  }

  /** `values[index - 1] = value` for each entry. */
  function Fill(slots: seq<Json>, keys: seq<LuaKey>, values: seq<Json>): (r: seq<Json>)
    requires |keys| == |values| && forall i :: 0 <= i < |keys| ==> keys[i].IntKey? && 1 <= keys[i].n <= |slots|
    ensures |r| == |slots|
    decreases |keys|
  {
    if keys == [] then slots else Fill(slots[keys[0].n - 1 := values[0]], keys[1..], values[1..])
  }

  function Gather(members: map<string, Json>, keys: seq<LuaKey>, values: seq<Json>): Option<map<string, Json>>
    requires |keys| == |values|
    decreases |keys|
  {
    if keys == [] then Some(members)
    else if MemberName(keys[0]).None? then None
    else Gather(members[MemberName(keys[0]).value := values[0]], keys[1..], values[1..])
  }

  function Nulls(n: nat): (r: seq<Json>)
    ensures |r| == n
  {
    if n == 0 then [] else Nulls(n - 1) + [Null]
  }

  lemma {:induction false} HighestBounds(keys: seq<LuaKey>)
    requires keys != [] && forall i :: 0 <= i < |keys| ==> keys[i].IntKey?
    ensures forall i :: 0 <= i < |keys| ==> keys[i].n <= Highest(keys)
    ensures IntKey(Highest(keys)) in keys
  {
    if |keys| == 1 {
    } else {
      HighestBounds(keys[1..]);
      assert keys == [keys[0]] + keys[1..];
    }
  }

  /** `lua_to_json`; values that JSON cannot name become null. */
  function ToJson(l: Lua): Option<Json>
    decreases l, 0
  {
    match l
    case Nil => Some(Null)
    case Boolean(b) => Some(Bool(b))
    case Integer(i) => Some(Int(i))
    case Number(r) => Some(Float(r))
    case Text(s) => Some(Str(s))
    case BadText => None
    case Foreign => Some(Null)
    case Table(pairs) =>
      match ToJsonAll(pairs)
      case None => None
      case Some(values) => Assemble(Keys(pairs), values)
  }

  function EntryToJson(e: Entry): Option<Json>
    decreases e, 0
  {
    ToJson(e.value)
  }

  function ToJsonAll(pairs: seq<Entry>): (values: Option<seq<Json>>)
    ensures values.Some? ==> |values.value| == |pairs| == |Keys(pairs)|
    decreases pairs, 0
  {
    if pairs == [] then Some([])
    else
      match (EntryToJson(pairs[0]), ToJsonAll(pairs[1..]))
      case (Some(v), Some(rest)) => Some([v] + rest)
      case _ => None
  }

  function Assemble(keys: seq<LuaKey>, values: seq<Json>): Option<Json>
    requires |keys| == |values|
  {
    if IsArray(keys) then
      HighestBounds(keys);
      Some(Arr(Fill(Nulls(|keys|), keys, values)))
    else
      match Gather(map[], keys, values)
      case None => None
      case Some(members) => Some(Obj(members))
  }

  // ---------- the array test is exact ----------

  function OneTo(n: nat): set<LuaKey> {
    set i | 1 <= i <= n :: IntKey(i)
  }

  lemma {:induction false} OneToCount(n: nat)
    ensures |OneTo(n)| == n
  {
    if n == 0 {
    } else {
      OneToCount(n - 1);
      assert OneTo(n) == OneTo(n - 1) + {IntKey(n)};
    }
  }

  /**
   With distinct keys, a table is taken for an array exactly when its keys are 1..n: n
   distinct positive keys whose maximum is n leave no gap.
   */
  lemma ArrayExactly(keys: seq<LuaKey>)
    requires Distinct(keys)
    ensures IsArray(keys) <==> keys != [] && Elements(keys) == OneTo(|keys|)
  {
    OneToCount(|keys|);
    DistinctCount(keys);
    if IsArray(keys) {
      HighestBounds(keys);
      assert Elements(keys) <= OneTo(|keys|);
      SubsetCount(Elements(keys), OneTo(|keys|));
    }
    if keys != [] && Elements(keys) == OneTo(|keys|) {
      forall i | 0 <= i < |keys|
        ensures keys[i].IntKey? && 0 < keys[i].n <= |keys|
      {
        assert keys[i] in Elements(keys);
      }
      HighestBounds(keys);
      assert IntKey(|keys|) in Elements(keys);
      assert IntKey(Highest(keys)) in Elements(keys);
    }
  }

  /** Every entry lands in its slot. */
  lemma {:induction false} FillPlaces(slots: seq<Json>, keys: seq<LuaKey>, values: seq<Json>, j: nat)
    requires |keys| == |values| && Distinct(keys) && j < |keys|
    requires forall i :: 0 <= i < |keys| ==> keys[i].IntKey? && 1 <= keys[i].n <= |slots|
    ensures Fill(slots, keys, values)[keys[j].n - 1] == values[j]
    decreases |keys|
  {
    var next := slots[keys[0].n - 1 := values[0]];
    if j > 0 {
      FillPlaces(next, keys[1..], values[1..], j - 1);
    } else {
      FillLeaves(next, keys[1..], values[1..], keys[0].n - 1);
    }
  }

  lemma {:induction false} FillLeaves(slots: seq<Json>, keys: seq<LuaKey>, values: seq<Json>, at: nat)
    requires |keys| == |values| && at < |slots|
    requires forall i :: 0 <= i < |keys| ==> keys[i].IntKey? && 1 <= keys[i].n <= |slots| && keys[i].n != at + 1
    ensures Fill(slots, keys, values)[at] == slots[at]
    decreases |keys|
  {
    if keys == [] {
    } else {
      FillLeaves(slots[keys[0].n - 1 := values[0]], keys[1..], values[1..], at);
    }
  }

  // ---------- from JSON to Lua ----------

  /**
   `l` is what `json_to_lua` may build for `v`: setting an entry to nil leaves none, an
   integer outside 64 bits becomes a float, and the order of a table is Lua's own.
   */
  ghost predicate Represents(v: Json, l: Lua)
    decreases v
  {
    match v
    case Null => l == Nil
    case Bool(b) => l == Boolean(b)
    case Int(n) => l == if MIN_I64 <= n <= MAX_I64 then Integer(n) else Number(n as real)
    case Float(r) => l == Number(r)
    case Str(s) => l == Text(s)
    case Arr(items) =>
      l.Table? && Distinct(Keys(l.pairs))
      && (forall k :: k in Keys(l.pairs) <==> k.IntKey? && 1 <= k.n <= |items| && items[k.n - 1] != Null)
      && (forall j :: 0 <= j < |l.pairs| ==> l.pairs[j].key.IntKey? && 1 <= l.pairs[j].key.n <= |items|
                                              && Represents(items[l.pairs[j].key.n - 1], l.pairs[j].value))
    case Obj(fields) =>
      l.Table? && Distinct(Keys(l.pairs))
      && (forall k :: k in Keys(l.pairs) <==> k.TextKey? && k.s in fields && fields[k.s] != Null)
      && (forall j :: 0 <= j < |l.pairs| ==> l.pairs[j].key.TextKey? && l.pairs[j].key.s in fields
                                              && Represents(fields[l.pairs[j].key.s], l.pairs[j].value))
  }

  /** No null inside, no empty array, and integers of 64 bits. */
  predicate Portable(v: Json)
    decreases v
  {
    match v
    case Int(n) => MIN_I64 <= n <= MAX_I64
    case Arr(items) => items != [] && forall i :: 0 <= i < |items| ==> items[i] != Null && Portable(items[i])
    case Obj(fields) => forall k :: k in fields ==> fields[k] != Null && Portable(fields[k])
    case _ => true
  }

  // ---------- the round trip ----------

  lemma {:induction false} KeysAt(pairs: seq<Entry>)
    ensures |Keys(pairs)| == |pairs| && forall j :: 0 <= j < |pairs| ==> Keys(pairs)[j] == pairs[j].key
  {
    if pairs == [] {
    } else {
      KeysAt(pairs[1..]);
    }
  }

  lemma {:induction false} AllConvert(pairs: seq<Entry>)
    requires forall j :: 0 <= j < |pairs| ==> ToJson(pairs[j].value).Some?
    ensures ToJsonAll(pairs).Some?
    ensures forall j :: 0 <= j < |pairs| ==> ToJsonAll(pairs).value[j] == ToJson(pairs[j].value).value
  {
    if pairs == [] {
    } else {
      AllConvert(pairs[1..]);
    }
  }

  lemma {:induction false} GatherSucceeds(members: map<string, Json>, keys: seq<LuaKey>, values: seq<Json>)
    requires |keys| == |values| && forall j :: 0 <= j < |keys| ==> !keys[j].ForeignKey?
    ensures Gather(members, keys, values).Some?
    decreases |keys|
  {
    if keys == [] {
    } else {
      GatherSucceeds(members[MemberName(keys[0]).value := values[0]], keys[1..], values[1..]);
    }
  }

  /** Distinct text keys become the members of the object, each with its value. */
  lemma {:induction false} GatherText(members: map<string, Json>, keys: seq<LuaKey>, values: seq<Json>)
    requires |keys| == |values| && Distinct(keys) && forall j :: 0 <= j < |keys| ==> keys[j].TextKey?
    ensures Gather(members, keys, values).Some?
    ensures var r := Gather(members, keys, values).value;
      && (forall k :: k in r <==> k in members || TextKey(k) in keys)
      && (forall j :: 0 <= j < |keys| ==> r[keys[j].s] == values[j])
      && (forall k :: k in members && TextKey(k) !in keys ==> r[k] == members[k])
    decreases |keys|
  {
    if keys == [] {
    } else {
      var next := members[keys[0].s := values[0]];
      GatherText(next, keys[1..], values[1..]);
      assert keys[0] == TextKey(keys[0].s) && keys[0] !in keys[1..];
      assert forall k :: TextKey(k) in keys <==> k == keys[0].s || TextKey(k) in keys[1..];
    }
  }

  /** What is known of the entries of a table once each converts. */
  ghost predicate Converted(v: Json, l: Lua) {
    ToJson(l).Some? && (ToJson(l).value == v <==> Portable(v))
  }

  lemma {:induction false} ArrayConverts(items: seq<Json>, l: Lua)
    requires Represents(Arr(items), l)
    requires forall j :: 0 <= j < |l.pairs| ==> Converted(items[l.pairs[j].key.n - 1], l.pairs[j].value)
    ensures Converted(Arr(items), l)
  {
    hide Represents, Portable, Fill, ToJson, Gather;
    ArrayEntries(items, l);
    var keys := Keys(l.pairs);
    AllConvert(l.pairs);
    var values := ToJsonAll(l.pairs).value;
    TableToJson(l, values);
    GatherSucceedsUnlessArray(keys, values);
    if exists i :: 0 <= i < |items| && items[i] == Null {
      var i :| 0 <= i < |items| && items[i] == Null;
      MissingKey(items, keys, i);
      NotPortable(items, i);
    } else if items == [] {
      assert keys == [];
      EmptyNotPortable();
    } else {
      AllKeys(items, keys);
      FullArray(items, l, values);
    }
  }

  lemma ArrayEntries(items: seq<Json>, l: Lua)
    requires Represents(Arr(items), l)
    ensures l.Table? && Distinct(Keys(l.pairs)) && |Keys(l.pairs)| == |l.pairs|
    ensures forall k :: k in Keys(l.pairs) <==> k.IntKey? && 1 <= k.n <= |items| && items[k.n - 1] != Null
    ensures forall j :: 0 <= j < |l.pairs| ==>
      l.pairs[j].key.IntKey? && 1 <= l.pairs[j].key.n <= |items| && Keys(l.pairs)[j] == l.pairs[j].key
  {
    KeysAt(l.pairs);
  }

  /** A null leaves its key out, so there are fewer entries than items. */
  lemma MissingKey(items: seq<Json>, keys: seq<LuaKey>, i: nat)
    requires Distinct(keys) && i < |items| && items[i] == Null
    requires forall k :: k in keys <==> k.IntKey? && 1 <= k.n <= |items| && items[k.n - 1] != Null
    ensures |keys| < |items|
  {
    DistinctCount(keys);
    OneToCount(|items|);
    assert Elements(keys) <= OneTo(|items|);
    assert IntKey(i + 1) in OneTo(|items|) && IntKey(i + 1) !in Elements(keys);
    SubsetCount(Elements(keys), OneTo(|items|));
  }

  lemma GatherSucceedsUnlessArray(keys: seq<LuaKey>, values: seq<Json>)
    requires |keys| == |values| && forall j :: 0 <= j < |keys| ==> keys[j].IntKey?
    ensures Assemble(keys, values).Some?
    ensures IsArray(keys) ==> Assemble(keys, values).value.Arr? && |Assemble(keys, values).value.items| == |keys|
    ensures !IsArray(keys) ==> Assemble(keys, values).value.Obj?
  {
    GatherSucceeds(map[], keys, values);
  }

  lemma AllKeys(items: seq<Json>, keys: seq<LuaKey>)
    requires forall i :: 0 <= i < |items| ==> items[i] != Null
    requires forall k :: k in keys <==> k.IntKey? && 1 <= k.n <= |items| && items[k.n - 1] != Null
    ensures Elements(keys) == OneTo(|items|)
  {
  }

  lemma NotPortable(items: seq<Json>, i: nat)
    requires i < |items| && items[i] == Null
    ensures !Portable(Arr(items))
  {
  }

  lemma EmptyNotPortable()
    ensures !Portable(Arr([]))
  {
  }

  /** An array without nulls comes back item by item. */
  lemma FullArray(items: seq<Json>, l: Lua, values: seq<Json>)
    requires l.Table? && items != [] && ToJsonAll(l.pairs) == Some(values) && Distinct(Keys(l.pairs))
    requires Elements(Keys(l.pairs)) == OneTo(|items|) && forall i :: 0 <= i < |items| ==> items[i] != Null
    requires forall j :: 0 <= j < |l.pairs| ==>
      && l.pairs[j].key.IntKey? && 1 <= l.pairs[j].key.n <= |items| && Keys(l.pairs)[j] == l.pairs[j].key
      && Converted(items[l.pairs[j].key.n - 1], l.pairs[j].value)
      && values[j] == ToJson(l.pairs[j].value).value
    ensures Converted(Arr(items), l)
  {
    hide ToJson, Fill, Portable, Represents, IsArray, Highest;
    var keys := Keys(l.pairs);
    FullKeys(items, keys);
    var r := Fill(Nulls(|keys|), keys, values);
    forall i | 0 <= i < |items|
      ensures r[i] == items[i] <==> Portable(items[i])
    {
      assert IntKey(i + 1) in Elements(keys);
      var j :| 0 <= j < |keys| && keys[j] == IntKey(i + 1);
      FillPlaces(Nulls(|keys|), keys, values, j);
      assert Converted(items[l.pairs[j].key.n - 1], l.pairs[j].value);
    }
    TableToJson(l, values);
    SameItems(items, r);
  }

  lemma FullKeys(items: seq<Json>, keys: seq<LuaKey>)
    requires Distinct(keys) && items != [] && Elements(keys) == OneTo(|items|)
    ensures |keys| == |items| && IsArray(keys)
    ensures forall j :: 0 <= j < |keys| ==> keys[j].IntKey? && 1 <= keys[j].n <= |items|
  {
    OneToCount(|items|);
    DistinctCount(keys);
    ArrayExactly(keys);
    HighestBounds(keys);
  }

  lemma TableToJson(l: Lua, values: seq<Json>)
    requires l.Table? && ToJsonAll(l.pairs) == Some(values)
    ensures ToJson(l) == Assemble(Keys(l.pairs), values)
  {
  }

  lemma SameItems(items: seq<Json>, r: seq<Json>)
    requires |r| == |items| && items != [] && forall i :: 0 <= i < |items| ==> items[i] != Null
    requires forall i :: 0 <= i < |items| ==> (r[i] == items[i] <==> Portable(items[i]))
    ensures Arr(r) == Arr(items) <==> Portable(Arr(items))
  {
    if Portable(Arr(items)) {
      assert r == items;
    }
  }

  lemma SameMembers(fields: map<string, Json>, r: map<string, Json>)
    requires forall k :: k in r <==> k in fields && fields[k] != Null
    requires forall k :: k in r ==> (r[k] == fields[k] <==> Portable(fields[k]))
    ensures Obj(r) == Obj(fields) <==> Portable(Obj(fields))
  {
    if Portable(Obj(fields)) {
      assert r == fields;
    }
  }

  lemma ObjectConverts(fields: map<string, Json>, l: Lua)
    requires Represents(Obj(fields), l)
    requires forall j :: 0 <= j < |l.pairs| ==> Converted(fields[l.pairs[j].key.s], l.pairs[j].value)
    ensures Converted(Obj(fields), l)
  {
    hide Represents, ToJson, Portable, Gather;
    ObjectEntries(fields, l);
    var keys := Keys(l.pairs);
    AllConvert(l.pairs);
    var values := ToJsonAll(l.pairs).value;
    GatherText(map[], keys, values);
    var r := Gather(map[], keys, values).value;
    TableToJson(l, values);
    forall k | k in r
      ensures k in fields && (r[k] == fields[k] <==> Portable(fields[k]))
    {
      assert TextKey(k) in keys;
      var j :| 0 <= j < |keys| && keys[j] == TextKey(k);
      assert Converted(fields[l.pairs[j].key.s], l.pairs[j].value);
    }
    forall k
      ensures k in r <==> k in fields && fields[k] != Null
    {
      assert k in r <==> TextKey(k) in keys;
    }
    SameMembers(fields, r);
  }

  lemma ObjectEntries(fields: map<string, Json>, l: Lua)
    requires Represents(Obj(fields), l)
    ensures l.Table? && Distinct(Keys(l.pairs)) && |Keys(l.pairs)| == |l.pairs|
    ensures forall k :: k in Keys(l.pairs) <==> k.TextKey? && k.s in fields && fields[k.s] != Null
    ensures forall j :: 0 <= j < |l.pairs| ==>
      l.pairs[j].key.TextKey? && l.pairs[j].key.s in fields && Keys(l.pairs)[j] == l.pairs[j].key
  {
    KeysAt(l.pairs);
  }

  /** A value comes back from Lua unchanged exactly when it is portable; the conversion back never fails. */
  lemma {:induction false} LuaRoundTrip(v: Json, l: Lua)
    requires Represents(v, l)
    ensures ToJson(l).Some? && (ToJson(l) == Some(v) <==> Portable(v))
    decreases v
  {
    match v
    case Arr(items) =>
      forall j | 0 <= j < |l.pairs|
        ensures Converted(items[l.pairs[j].key.n - 1], l.pairs[j].value)
      {
        LuaRoundTrip(items[l.pairs[j].key.n - 1], l.pairs[j].value);
      }
      ArrayConverts(items, l);
    case Obj(fields) =>
      forall j | 0 <= j < |l.pairs|
        ensures Converted(fields[l.pairs[j].key.s], l.pairs[j].value)
      {
        LuaRoundTrip(fields[l.pairs[j].key.s], l.pairs[j].value);
      }
      ObjectConverts(fields, l);
    case _ =>
  }

  // ---------- building the Lua value ----------

  /** The entries of a table under construction: distinct keys, exactly `wanted`, each with its value. */
  ghost predicate Built(pairs: seq<Entry>, wanted: set<LuaKey>) {
    Distinct(Keys(pairs)) && Elements(Keys(pairs)) == wanted
  }

  lemma {:induction false} KeysExtend(pairs: seq<Entry>, e: Entry)
    ensures Keys(pairs + [e]) == Keys(pairs) + [e.key]
  {
    if pairs == [] {
    } else {
      assert (pairs + [e])[1..] == pairs[1..] + [e];
      KeysExtend(pairs[1..], e);
    }
  }

  lemma BuiltMore(pairs: seq<Entry>, wanted: set<LuaKey>, e: Entry)
    requires Built(pairs, wanted) && e.key !in wanted
    ensures Built(pairs + [e], wanted + {e.key})
  {
    KeysExtend(pairs, e);
    ElementsAppend(Keys(pairs), [e.key]);
    assert Elements([e.key]) == {e.key};
    assert e.key !in Keys(pairs);
  }

  function Present(items: seq<Json>, n: nat): set<LuaKey>
    requires n <= |items|
  {
    set i | 1 <= i <= n && items[i - 1] != Null :: IntKey(i)
  }

  method BuildArray(v: Json) returns (l: Lua)
    requires v.Arr?
    ensures Represents(v, l)
    decreases v, 0
  {
    var pairs: seq<Entry> := [];
    var items := v.items;
    for n := 0 to |items|
      invariant Built(pairs, Present(items, n))
      invariant forall j :: 0 <= j < |pairs| ==> pairs[j].key.IntKey? && 1 <= pairs[j].key.n <= |items|
                                                 && Represents(items[pairs[j].key.n - 1], pairs[j].value)
    {
      hide Represents, Built;
      var value := ToLua(items[n]);
      if items[n] != Null {
        BuiltMore(pairs, Present(items, n), Entry(IntKey(n + 1), value));
        assert Present(items, n + 1) == Present(items, n) + {IntKey(n + 1)};
        pairs := pairs + [Entry(IntKey(n + 1), value)];
      } else {
        assert Present(items, n + 1) == Present(items, n);
      }
    }
    forall k
      ensures k in Keys(pairs) <==> k.IntKey? && 1 <= k.n <= |items| && items[k.n - 1] != Null
    {
      assert k in Elements(Keys(pairs)) <==> k in Present(items, |items|);
    }
    return Table(pairs);
  }

  /** The members already set, while those in `left` are not. */
  function Members(fields: map<string, Json>, left: set<string>): set<LuaKey> {
    set k | k in fields && k !in left && fields[k] != Null :: TextKey(k)
  }

  lemma MembersMore(fields: map<string, Json>, left: set<string>, k: string)
    requires left <= fields.Keys && k in left
    ensures TextKey(k) !in Members(fields, left)
    ensures Members(fields, left - {k}) == Members(fields, left) + (if fields[k] != Null then {TextKey(k)} else {})
  {
    var a, b := Members(fields, left - {k}), Members(fields, left) + (if fields[k] != Null then {TextKey(k)} else {});
    forall x
      ensures x in a <==> x in b
    {
      if x.TextKey? {
        assert x == TextKey(x.s);
      }
    }
  }

  lemma NothingBuilt(fields: map<string, Json>)
    ensures Built([], Members(fields, fields.Keys))
  {
  }

  lemma ObjectBuilt(v: Json, pairs: seq<Entry>)
    requires v.Obj? && Built(pairs, Members(v.fields, {}))
    requires forall j :: 0 <= j < |pairs| ==>
      pairs[j].key.TextKey? && pairs[j].key.s in v.fields && Represents(v.fields[pairs[j].key.s], pairs[j].value)
    ensures Represents(v, Table(pairs))
  {
    forall k
      ensures k in Keys(pairs) <==> k.TextKey? && k.s in v.fields && v.fields[k.s] != Null
    {
      assert k in Elements(Keys(pairs)) <==> k in Members(v.fields, {});
    }
  }

  method BuildObject(v: Json) returns (l: Lua)
    requires v.Obj?
    ensures Represents(v, l)
    decreases v, 0
  {
    hide Represents, Built, Members;
    var pairs: seq<Entry> := [];
    var fields := v.fields;
    var left := fields.Keys;
    NothingBuilt(fields);
    while left != {}
      invariant left <= fields.Keys
      invariant Built(pairs, Members(fields, left))
      invariant forall j :: 0 <= j < |pairs| ==>
        pairs[j].key.TextKey? && pairs[j].key.s in fields && Represents(fields[pairs[j].key.s], pairs[j].value)
      decreases |left|
    {
      var k :| k in left;
      var value := ToLua(fields[k]);
      MembersMore(fields, left, k);
      if fields[k] != Null {
        BuiltMore(pairs, Members(fields, left), Entry(TextKey(k), value));
        pairs := pairs + [Entry(TextKey(k), value)];
      }
      left := left - {k};
    }
    ObjectBuilt(v, pairs);
    return Table(pairs);
  }

  /** `json_to_lua`: whatever order an object's members are set in. */
  method ToLua(v: Json) returns (l: Lua)
    ensures Represents(v, l)
    decreases v, 1
  {
    match v
    case Null => l := Nil;
    case Bool(b) => l := Boolean(b);
    case Int(n) => l := if MIN_I64 <= n <= MAX_I64 then Integer(n) else Number(n as real);
    case Float(r) => l := Number(r);
    case Str(s) => l := Text(s);
    case Arr(items) => l := BuildArray(v);
    case Obj(fields) => l := BuildObject(v);
  }

  // ---------- any Lua value ----------

  /** What an entry's key is called in an object: its text, or its number in decimal. */
  ghost predicate Called(key: LuaKey, name: string) {
    || (key.TextKey? && name == key.s)
    || (key.IntKey? && key.n >= 0 && name == Decimal(key.n))
    || (key.IntKey? && key.n < 0 && name == ['-'] + Decimal(-key.n))
  }

  lemma NamesAreUnique(key: LuaKey, a: string, b: string)
    requires Called(key, a) && Called(key, b)
    ensures a == b
  {
  }

  /** The keys that are neither text nor integers cannot be called anything. */
  lemma ForeignIsUncalled(key: LuaKey)
    ensures key.ForeignKey? <==> forall name :: !Called(key, name)
  {
    if key.TextKey? {
      assert Called(key, key.s);
    } else if key.IntKey? {
      assert Called(key, if key.n < 0 then ['-'] + Decimal(-key.n) else Decimal(key.n));
    }
  }

  /** Entry `j` gives the member `name`, since no later entry is called so. */
  ghost predicate Provides(keys: seq<LuaKey>, j: int, name: string) {
    0 <= j < |keys| && Called(keys[j], name) && forall i :: j < i < |keys| ==> !Called(keys[i], name)
  }

  /** An object's members are what its keys are called, each with its last entry's value. */
  lemma {:induction false} GatherMeans(members: map<string, Json>, keys: seq<LuaKey>, values: seq<Json>)
    requires |keys| == |values|
    ensures Gather(members, keys, values).Some? <==> forall j :: 0 <= j < |keys| ==> !keys[j].ForeignKey?
    ensures Gather(members, keys, values).Some? ==>
      var r := Gather(members, keys, values).value;
      && (forall name :: name in r <==> name in members || exists j :: Provides(keys, j, name))
      && (forall j, name :: Provides(keys, j, name) ==> name in r && r[name] == values[j])
      && (forall name :: name in members && (forall j :: !Provides(keys, j, name)) ==>
            name in r && r[name] == members[name])
    decreases |keys|
  {
    if keys == [] {
    } else if !keys[0].ForeignKey? {
      var name, rest := MemberName(keys[0]).value, keys[1..];
      assert Called(keys[0], name);
      var next := members[name := values[0]];
      GatherMeans(next, rest, values[1..]);
      assert forall j :: 1 <= j < |keys| ==> keys[j] == rest[j - 1] && values[j] == values[1..][j - 1];
      if Gather(members, keys, values).Some? {
        GatherStep(members, keys, values, name, Gather(members, keys, values).value);
      }
    }
  }

  lemma ProvidesLater(keys: seq<LuaKey>, j: int, name: string)
    requires keys != []
    ensures j >= 1 ==> (Provides(keys, j, name) <==> Provides(keys[1..], j - 1, name))
    ensures Provides(keys, 0, name) <==> Called(keys[0], name) && forall i :: !Provides(keys[1..], i, name)
  {
    hide Called;
    var rest := keys[1..];
    assert forall i :: 1 <= i < |keys| ==> keys[i] == rest[i - 1];
    if exists i :: 1 <= i < |keys| && Called(keys[i], name) {
      LastCalled(rest, name);
    }
    if Provides(keys, 0, name) {
      forall i
        ensures !Provides(rest, i, name)
      {
        if 0 <= i < |rest| {
          assert !Called(keys[i + 1], name);
        }
      }
    }
  }

  /** Among the entries called so there is a last one. */
  lemma {:induction false} LastCalled(keys: seq<LuaKey>, name: string)
    requires exists i :: 0 <= i < |keys| && Called(keys[i], name)
    ensures exists j :: Provides(keys, j, name)
    decreases |keys|
  {
    hide Called;
    var n := |keys| - 1;
    if Called(keys[n], name) {
      assert Provides(keys, n, name);
    } else {
      var i :| 0 <= i < |keys| && Called(keys[i], name);
      assert keys[..n][i] == keys[i];
      LastCalled(keys[..n], name);
      var j :| Provides(keys[..n], j, name);
      assert Provides(keys, j, name);
    }
  }

  lemma GatherStep(members: map<string, Json>, keys: seq<LuaKey>, values: seq<Json>, name: string, r: map<string, Json>)
    requires keys != [] && |keys| == |values| && Called(keys[0], name)
    requires var next, rest := members[name := values[0]], keys[1..];
      && (forall x :: x in r <==> x in next || exists j :: Provides(rest, j, x))
      && (forall j, x :: Provides(rest, j, x) ==> x in r && r[x] == values[1..][j])
      && (forall x :: x in next && (forall j :: !Provides(rest, j, x)) ==> x in r && r[x] == next[x])
    ensures forall x :: x in r <==> x in members || exists j :: Provides(keys, j, x)
    ensures forall j, x :: Provides(keys, j, x) ==> x in r && r[x] == values[j]
    ensures forall x :: x in members && (forall j :: !Provides(keys, j, x)) ==> x in r && r[x] == members[x]
  {
    hide Called, Provides;
    var rest := keys[1..];
    forall x
      ensures x in r <==> x in members || exists j :: Provides(keys, j, x)
      ensures x in members && (forall j :: !Provides(keys, j, x)) ==> x in r && r[x] == members[x]
    {
      ProvidesShift(keys, name, x);
    }
    forall j, x | Provides(keys, j, x)
      ensures 0 <= j < |keys|
    {
      InRange(keys, j, x);
    }
    forall j, x | 0 <= j < |keys| && Provides(keys, j, x)
      ensures x in r && r[x] == values[j]
    {
      ProvidesLater(keys, j, x);
      if j == 0 {
        FirstName(keys, name, x);
      } else {
        assert Provides(rest, j - 1, x) && values[1..][j - 1] == values[j];
      }
    }
  }

  lemma InRange(keys: seq<LuaKey>, j: int, x: string)
    requires Provides(keys, j, x)
    ensures 0 <= j < |keys|
  {
  }

  lemma FirstName(keys: seq<LuaKey>, name: string, x: string)
    requires keys != [] && Called(keys[0], name) && Provides(keys, 0, x)
    ensures x == name
  {
    NamesAreUnique(keys[0], name, x);
  }

  /** A name is provided by the first entry, by a later one, or by none. */
  lemma ProvidesShift(keys: seq<LuaKey>, name: string, x: string)
    requires keys != [] && Called(keys[0], name)
    ensures (exists j :: Provides(keys, j, x)) <==> x == name || exists j :: Provides(keys[1..], j, x)
    ensures x == name && (forall j :: !Provides(keys[1..], j, x)) ==> Provides(keys, 0, x)
  {
    hide Called, Provides;
    var rest := keys[1..];
    ProvidesLater(keys, 0, x);
    if exists j :: Provides(rest, j, x) {
      var j :| Provides(rest, j, x);
      InRange(rest, j, x);
      ProvidesLater(keys, j + 1, x);
      assert Provides(keys, j + 1, x);
    }
    if exists j :: Provides(keys, j, x) {
      var j :| Provides(keys, j, x);
      InRange(keys, j, x);
      ProvidesLater(keys, j, x);
      if j == 0 {
        FirstName(keys, name, x);
      } else {
        assert Provides(rest, j - 1, x);
      }
    }
  }

  /** What has a JSON form: no text that is not UTF-8, and no foreign keys but those of other tables. */
  ghost predicate HasJson(l: Lua)
    decreases l
  {
    match l
    case BadText => false
    case Table(pairs) =>
      && (forall j :: 0 <= j < |pairs| ==> HasJson(pairs[j].value))
      && forall j :: 0 <= j < |pairs| ==> !pairs[j].key.ForeignKey?
    case _ => true
  }

  /** A Lua value converts exactly if it has a JSON form. */
  lemma {:induction false} ConvertsIff(l: Lua)
    ensures ToJson(l).Some? <==> HasJson(l)
    decreases l
  {
    match l
    case Table(pairs) =>
      forall j | 0 <= j < |pairs|
        ensures ToJson(pairs[j].value).Some? <==> HasJson(pairs[j].value)
      {
        ConvertsIff(pairs[j].value);
      }
      KeysAt(pairs);
      AllConvertIff(pairs);
      if ToJsonAll(pairs).Some? {
        TableToJson(l, ToJsonAll(pairs).value);
        GatherMeans(map[], Keys(pairs), ToJsonAll(pairs).value);
      }
    case _ =>
  }

  lemma {:induction false} AllConvertIff(pairs: seq<Entry>)
    ensures ToJsonAll(pairs).Some? <==> forall j :: 0 <= j < |pairs| ==> ToJson(pairs[j].value).Some?
  {
    if pairs == [] {
    } else {
      AllConvertIff(pairs[1..]);
      assert forall j :: 1 <= j < |pairs| ==> pairs[j] == pairs[1..][j - 1];
    }
  }

  /**
   A table that converts is an array exactly if its keys are 1..n, each entry in its slot;
   else an object with a member for whatever its keys are called.
   */
  lemma TableMeans(pairs: seq<Entry>)
    requires Distinct(Keys(pairs)) && ToJson(Table(pairs)).Some?
    ensures |Keys(pairs)| == |pairs| && forall j :: 0 <= j < |pairs| ==> ToJson(pairs[j].value).Some?
    ensures var v, keys := ToJson(Table(pairs)).value, Keys(pairs);
      if pairs != [] && Elements(keys) == OneTo(|keys|) then
        v.Arr? && |v.items| == |keys| && forall j :: 0 <= j < |keys| ==>
          keys[j].IntKey? && 1 <= keys[j].n <= |keys| && Some(v.items[keys[j].n - 1]) == ToJson(pairs[j].value)
      else
        && v.Obj?
        && (forall name :: name in v.fields <==> exists j :: Provides(keys, j, name))
        && forall j, name :: Provides(keys, j, name) ==>
             0 <= j < |pairs| && name in v.fields && Some(v.fields[name]) == ToJson(pairs[j].value)
  {
    hide Provides, Fill, Gather, IsArray;
    var keys := Keys(pairs);
    KeysAt(pairs);
    AllConvertIff(pairs);
    AllConvert(pairs);
    var values := ToJsonAll(pairs).value;
    TableToJson(Table(pairs), values);
    ArrayExactly(keys);
    hide ToJson;
    if IsArray(keys) {
      ArrayKeys(keys);
      forall j | 0 <= j < |keys|
        ensures Fill(Nulls(|keys|), keys, values)[keys[j].n - 1] == values[j]
      {
        FillPlaces(Nulls(|keys|), keys, values, j);
      }
    } else {
      GatherMeans(map[], keys, values);
      forall j, name | Provides(keys, j, name)
        ensures 0 <= j < |pairs|
      {
        InRange(keys, j, name);
      }
    }
  }

  lemma ArrayKeys(keys: seq<LuaKey>)
    requires IsArray(keys)
    ensures forall i :: 0 <= i < |keys| ==> keys[i].IntKey? && 1 <= keys[i].n <= |keys|
  {
    HighestBounds(keys);
  }

  /** A function or other foreign value becomes null. */
  lemma ForeignIsNull()
    ensures ToJson(Foreign) == Some(Null) && ToJson(Nil) == Some(Null)
  {
  }
}
