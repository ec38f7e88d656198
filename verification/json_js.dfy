/**
 The canonical printer of the web client (web/src/ledger.ts), over JavaScript values whose
 object properties keep insertion order. It prints what the server prints, so property
 order never reaches a digest.
 */
module JsonJs {
  import opened Common
  import opened Text
  import opened Json
  import opened JsonText

  /** `Other` stands for the values that have no JSON form. */
  datatype Js =
    | JsNull
    | JsBool(b: bool)
    | JsInteger(n: int)
    | JsFraction
    | JsStr(s: string)
    | JsArr(items: seq<Js>)
    | JsObj(members: seq<(string, Js)>)
    | Other

  function Keys(members: seq<(string, Js)>): seq<string> {
    if members == [] then [] else [members[0].0] + Keys(members[1..])
  }

  function Lookup(members: seq<(string, Js)>, key: string): (v: Js)
    requires key in Keys(members)
    ensures exists i :: 0 <= i < |members| && members[i] == (key, v)
  {
    if members[0].0 == key then members[0].1
    else
      var v := Lookup(members[1..], key);
      var i :| 0 <= i < |members[1..]| && members[1..][i] == (key, v);
      assert members[i + 1] == (key, v);
      v
  }

  /** Property names are distinct, as in any object. */
  ghost predicate Proper(v: Js)
    decreases v
  {
    match v
    case JsArr(items) => forall i :: 0 <= i < |items| ==> Proper(items[i])
    case JsObj(members) => Distinct(Keys(members)) && forall i :: 0 <= i < |members| ==> Proper(members[i].1)
    case _ => true
  }

  // ---------- the printer ----------

  function Encode(v: Js, depth: nat): Option<string>
    decreases v, 1
  {
    if depth > MAX_DEPTH then None
    else
      match v
      case JsNull => Some("null")
      case JsBool(b) => Some(if b then "true" else "false")
      case JsInteger(n) => if -MAX_INTEGER <= n <= MAX_INTEGER then Some(PrintInt(n)) else None
      case JsStr(s) => Some(Quote(s))
      case JsArr(items) =>
        (match EncodeItems(items, depth)
         case Some(body) => Some("[" + body + "]")
         case None => None)
      case JsObj(members) =>
        SortKeepsKeys(Keys(members));
        (match EncodeMembers(v, Sort(Keys(members)), depth)
         case Some(body) => Some("{" + body + "}")
         case None => None)
      case _ => None
  }

  function EncodeItems(items: seq<Js>, depth: nat): Option<string>
    decreases items, 0
  {
    if items == [] then Some("")
    else
      match Encode(items[0], depth + 1)
      case None => None
      case Some(first) =>
        if |items| == 1 then Some(first)
        else
          match EncodeItems(items[1..], depth)
          case None => None
          case Some(rest) => Some(first + "," + rest)
  }

  /** Keys are encoded one level down, like values. */
  function EncodeMembers(v: Js, keys: seq<string>, depth: nat): Option<string>
    requires v.JsObj? && forall i :: 0 <= i < |keys| ==> keys[i] in Keys(v.members)
    decreases v, 0, |keys|
  {
    if keys == [] then Some("")
    else if depth + 1 > MAX_DEPTH then None
    else
      match Encode(Lookup(v.members, keys[0]), depth + 1)
      case None => None
      case Some(value) =>
        var member := Quote(keys[0]) + ":" + value;
        if |keys| == 1 then Some(member)
        else
          match EncodeMembers(v, keys[1..], depth)
          case None => None
          case Some(rest) => Some(member + "," + rest)
  }

  lemma {:induction false} InsertKeeps(k: string, sorted: seq<string>)
    ensures Elements(Insert(k, sorted)) == {k} + Elements(sorted)
  {
    if sorted == [] || Less(k, sorted[0]) {
    } else {
      InsertKeeps(k, sorted[1..]);
      ElementsAppend([sorted[0]], Insert(k, sorted[1..]));
      assert sorted == [sorted[0]] + sorted[1..];
    }
  }

  lemma {:induction false} SortKeepsKeys(keys: seq<string>)
    ensures Elements(Sort(keys)) == Elements(keys)
    ensures forall i :: 0 <= i < |Sort(keys)| ==> Sort(keys)[i] in keys
  {
    if keys == [] {
    } else {
      SortKeepsKeys(keys[1..]);
      InsertKeeps(keys[0], Sort(keys[1..]));
      assert keys == [keys[0]] + keys[1..];
    }
    forall i | 0 <= i < |Sort(keys)|
      ensures Sort(keys)[i] in keys
    {
      assert Sort(keys)[i] in Elements(Sort(keys));
    }
  }

  // ---------- the value a JavaScript value denotes ----------

  /** Property order is forgotten. A number that is not an integer, or no JSON at all, becomes a float. */
  ghost function Value(v: Js): Json
    decreases v, 1
  {
    match v
    case JsNull => Null
    case JsBool(b) => Bool(b)
    case JsInteger(n) => Int(n)
    case JsStr(s) => Str(s)
    case JsArr(items) => Arr(seq(|items|, i requires 0 <= i < |items| => Value(items[i])))
    case JsObj(members) => Obj(map k | k in Keys(members) :: Value(Lookup(members, k)))
    case _ => Float(0.0)
  }

  lemma {:induction false} PrintsAlike(v: Js, depth: nat)
    requires Proper(v)
    ensures Encode(v, depth) == if Fits(Value(v), depth) then Some(Print(Value(v))) else None
    decreases v, 1
  {
    if depth > MAX_DEPTH {
    } else {
      match v
      case JsArr(items) => ArrayPrintsAlike(v, depth);
      case JsObj(members) => ObjectPrintsAlike(v, depth);
      case _ =>
    }
  }

  /** How one property value prints at a depth, as the induction gives it. */
  ghost predicate Alike(v: Js, j: Json, depth: nat) {
    Encode(v, depth) == if Fits(j, depth) then Some(Print(j)) else None
  }

  lemma {:induction false} ObjectPrintsAlike(v: Js, depth: nat)
    requires v.JsObj? && Proper(v) && depth <= MAX_DEPTH
    ensures Encode(v, depth) == if Fits(Value(v), depth) then Some(Print(Value(v))) else None
    decreases v, 0
  {
    var j := Value(v);
    var keys := SortedKeys(j.fields.Keys);
    ObjectKeys(v, keys);
    forall k | k in keys
      ensures Alike(Lookup(v.members, k), j.fields[k], depth + 1)
    {
      PrintsAlike(Lookup(v.members, k), depth + 1);
    }
    ObjectOpens(v, keys, depth);
    FieldsFit(j, keys, depth);
    hide Encode, EncodeMembers, Print, PrintFields, Fits, Alike, Value, SortedKeys;
    MembersPrintAlike(v, j, keys, depth);
  }

  lemma ObjectKeys(v: Js, keys: seq<string>)
    requires v.JsObj? && Proper(v) && keys == SortedKeys(Value(v).fields.Keys)
    ensures keys == Sort(Keys(v.members)) && Elements(keys) == Value(v).fields.Keys
    ensures forall i :: 0 <= i < |keys| ==> keys[i] in Keys(v.members) && keys[i] in Value(v).fields
    ensures forall k :: k in keys ==> Value(v).fields[k] == Value(Lookup(v.members, k))
  {
    assert Value(v).fields.Keys == Elements(Keys(v.members));
    SortIsSortedKeys(Keys(v.members));
    assert forall i :: 0 <= i < |keys| ==> keys[i] in Elements(keys);
  }

  lemma ObjectOpens(v: Js, keys: seq<string>, depth: nat)
    requires v.JsObj? && depth <= MAX_DEPTH && keys == Sort(Keys(v.members))
    requires Elements(keys) == Value(v).fields.Keys && keys == SortedKeys(Value(v).fields.Keys)
    requires forall i :: 0 <= i < |keys| ==> keys[i] in Keys(v.members)
    ensures Encode(v, depth) ==
      match EncodeMembers(v, keys, depth) case Some(body) => Some("{" + body + "}") case None => None
    ensures Print(Value(v)) == "{" + PrintFields(Value(v), keys) + "}"
  {
  }

  lemma FieldsFit(j: Json, keys: seq<string>, depth: nat)
    requires j.Obj? && depth <= MAX_DEPTH && Elements(keys) == j.fields.Keys
    requires forall i :: 0 <= i < |keys| ==> keys[i] in j.fields
    ensures Fits(j, depth) <==> forall i :: 0 <= i < |keys| ==> Fits(j.fields[keys[i]], depth + 1)
  {
    assert forall k :: k in j.fields ==> k in Elements(keys);
  }

  lemma {:induction false} ArrayPrintsAlike(v: Js, depth: nat)
    requires v.JsArr? && Proper(v) && depth <= MAX_DEPTH
    ensures Encode(v, depth) == if Fits(Value(v), depth) then Some(Print(Value(v))) else None
    decreases v, 0
  {
    var values := Value(v).items;
    forall i | 0 <= i < |values|
      ensures Alike(v.items[i], values[i], depth + 1)
    {
      PrintsAlike(v.items[i], depth + 1);
    }
    hide Alike, Fits, Print, PrintItems, EncodeItems;
    ItemsPrintAlike(v.items, values, depth);
    ArrayOpens(v, values, depth);
  }

  lemma ArrayOpens(v: Js, values: seq<Json>, depth: nat)
    requires v.JsArr? && depth <= MAX_DEPTH && Value(v) == Arr(values)
    ensures Encode(v, depth) ==
      match EncodeItems(v.items, depth) case Some(body) => Some("[" + body + "]") case None => None
    ensures Print(Value(v)) == "[" + PrintItems(values) + "]"
    ensures Fits(Value(v), depth) <==> forall i :: 0 <= i < |values| ==> Fits(values[i], depth + 1)
  {
    hide EncodeItems, PrintItems;
  }

  lemma {:induction false} ItemsPrintAlike(items: seq<Js>, values: seq<Json>, depth: nat)
    requires |items| == |values| && forall i :: 0 <= i < |items| ==> Alike(items[i], values[i], depth + 1)
    ensures EncodeItems(items, depth) ==
      if forall i :: 0 <= i < |values| ==> Fits(values[i], depth + 1) then Some(PrintItems(values)) else None
    decreases |items|
  {
    hide Alike, Encode, Fits, Print;
    if items == [] {
    } else {
      hide EncodeItems, PrintItems;
      ItemsPrintAlike(items[1..], values[1..], depth);
      ItemsStep(items, values, depth);
      FitsItems(values, depth);
    }
  }

  lemma ItemsStep(items: seq<Js>, values: seq<Json>, depth: nat)
    requires items != [] && |items| == |values| && Alike(items[0], values[0], depth + 1)
    ensures !Fits(values[0], depth + 1) ==> EncodeItems(items, depth).None?
    ensures Fits(values[0], depth + 1) ==>
      match EncodeItems(items[1..], depth)
      case None => EncodeItems(items, depth).None? || |items| == 1
      case Some(rest) => rest == PrintItems(values[1..]) ==> EncodeItems(items, depth) == Some(PrintItems(values))
    ensures |items| == 1 && Fits(values[0], depth + 1) ==> EncodeItems(items, depth) == Some(PrintItems(values))
  {
    hide Fits, Print, Encode;
  }

  lemma FitsItems(values: seq<Json>, depth: nat)
    requires values != []
    ensures (forall i :: 0 <= i < |values| ==> Fits(values[i], depth + 1)) <==>
      Fits(values[0], depth + 1) && forall i :: 0 <= i < |values[1..]| ==> Fits(values[1..][i], depth + 1)
  {
    hide Fits;
    assert forall i :: 0 < i < |values| ==> values[i] == values[1..][i - 1];
  }

  lemma {:induction false} MembersPrintAlike(v: Js, j: Json, keys: seq<string>, depth: nat)
    requires v.JsObj? && j.Obj? && Elements(keys) <= j.fields.Keys && depth <= MAX_DEPTH
    requires forall i :: 0 <= i < |keys| ==> keys[i] in Keys(v.members) && keys[i] in j.fields
    requires forall i :: 0 <= i < |keys| ==> Alike(Lookup(v.members, keys[i]), j.fields[keys[i]], depth + 1)
    ensures EncodeMembers(v, keys, depth) ==
      if forall i :: 0 <= i < |keys| ==> Fits(j.fields[keys[i]], depth + 1) then Some(PrintFields(j, keys)) else None
    decreases |keys|
  {
    hide Alike, Lookup, Encode, Print, Keys, Quote, EncodeMembers, PrintFields, Fits;
    if keys == [] {
      NothingPrints(v, j, depth);
    } else {
      ElementsOfRest(keys);
      MembersPrintAlike(v, j, keys[1..], depth);
      assert Alike(Lookup(v.members, keys[0]), j.fields[keys[0]], depth + 1);
      AlikeMeans(Lookup(v.members, keys[0]), j.fields[keys[0]], depth + 1);
      EncodeStep(v, keys, depth);
      PrintStep(j, keys);
      FitsCons(j, keys, depth);
      TooDeep(j.fields[keys[0]], depth + 1);
    }
  }

  lemma NothingPrints(v: Js, j: Json, depth: nat)
    requires v.JsObj? && j.Obj?
    ensures EncodeMembers(v, [], depth) == Some("") && PrintFields(j, []) == ""
  {
  }

  lemma ElementsOfRest(keys: seq<string>)
    requires keys != []
    ensures Elements(keys[1..]) <= Elements(keys)
  {
  }

  lemma EncodeStep(v: Js, keys: seq<string>, depth: nat)
    requires v.JsObj? && keys != [] && forall i :: 0 <= i < |keys| ==> keys[i] in Keys(v.members)
    ensures depth + 1 > MAX_DEPTH ==> EncodeMembers(v, keys, depth).None?
    ensures var value := Encode(Lookup(v.members, keys[0]), depth + 1);
      value.None? ==> EncodeMembers(v, keys, depth).None?
    ensures var value, rest := Encode(Lookup(v.members, keys[0]), depth + 1), EncodeMembers(v, keys[1..], depth);
      depth + 1 <= MAX_DEPTH && value.Some? ==>
        var member := Quote(keys[0]) + ":" + value.value;
        EncodeMembers(v, keys, depth) ==
        if |keys| == 1 then Some(member) else if rest.None? then None else Some(member + "," + rest.value)
  {
  }

  lemma PrintStep(j: Json, keys: seq<string>)
    requires j.Obj? && keys != [] && keys[0] in j.fields && Elements(keys) <= j.fields.Keys
    requires Elements(keys[1..]) <= j.fields.Keys
    ensures var member := Quote(keys[0]) + ":" + Print(j.fields[keys[0]]);
      PrintFields(j, keys) == if |keys| == 1 then member else member + "," + PrintFields(j, keys[1..])
  {
  }

  lemma AlikeMeans(v: Js, j: Json, depth: nat)
    requires Alike(v, j, depth)
    ensures Encode(v, depth) == if Fits(j, depth) then Some(Print(j)) else None
  {
  }

  lemma TooDeep(j: Json, depth: nat)
    ensures depth > MAX_DEPTH ==> !Fits(j, depth)
  {
  }

  lemma FitsCons(j: Json, keys: seq<string>, depth: nat)
    requires j.Obj? && keys != [] && forall i :: 0 <= i < |keys| ==> keys[i] in j.fields
    ensures (forall i :: 0 <= i < |keys| ==> Fits(j.fields[keys[i]], depth + 1)) <==>
      Fits(j.fields[keys[0]], depth + 1)
      && forall i :: 0 <= i < |keys[1..]| ==> Fits(j.fields[keys[1..][i]], depth + 1)
  {
    hide Fits;
    assert forall i :: 0 < i < |keys| ==> keys[i] == keys[1..][i - 1];
  }

  /** `canonicalJson`. */
  function CanonicalJs(v: Js): Option<string> {
    match Encode(v, 0)
    case None => None
    case Some(text) => if |Utf8(text)| <= MAX_BYTES then Some(text) else None
  }

  /** Client and server print the same canonical text, or both refuse. */
  lemma ClientAgreesWithServer(v: Js)
    requires Proper(v)
    ensures CanonicalJs(v) == Canonical(Value(v))
  {
    hide Utf8;
    PrintsAlike(v, 0);
  }

  /** The same value but for the order of properties, at any nesting. */
  ghost predicate Reordered(a: Js, b: Js)
    decreases a
  {
    match a
    case JsArr(items) =>
      b.JsArr? && |b.items| == |items| && forall i :: 0 <= i < |items| ==> Reordered(items[i], b.items[i])
    case JsObj(members) =>
      && b.JsObj?
      && (forall k :: k in Keys(members) <==> k in Keys(b.members))
      && forall k :: k in Keys(members) ==> Reordered(Lookup(members, k), Lookup(b.members, k))
    case _ => a == b
  }

  /** Reordering properties at any nesting does not change what is denoted, hence not what is printed. */
  lemma PropertyOrderIrrelevant(a: Js, b: Js)
    requires Proper(a) && Proper(b) && Reordered(a, b)
    ensures CanonicalJs(a) == CanonicalJs(b)
  {
    ReorderedDenotesSame(a, b);
    ClientAgreesWithServer(a);
    ClientAgreesWithServer(b);
  }

  lemma {:induction false} ReorderedDenotesSame(a: Js, b: Js)
    requires Reordered(a, b)
    ensures Value(a) == Value(b)
    decreases a
  {
    match a
    case JsArr(items) =>
      forall i | 0 <= i < |items|
        ensures Value(items[i]) == Value(b.items[i])
      {
        ReorderedDenotesSame(items[i], b.items[i]);
      }
    case JsObj(members) =>
      forall k | k in Keys(members)
        ensures Value(Lookup(members, k)) == Value(Lookup(b.members, k))
      {
        ReorderedDenotesSame(Lookup(members, k), Lookup(b.members, k));
      }
    case _ =>
  }

  /** A permutation of an object's properties is such a reordering. */
  lemma PermutationReorders(a: seq<(string, Js)>, b: seq<(string, Js)>)
    requires Proper(JsObj(a)) && Proper(JsObj(b)) && multiset(a) == multiset(b)
    ensures Reordered(JsObj(a), JsObj(b))
  {
    hide Proper;
    ProperKeys(a);
    ProperKeys(b);
    forall m
      ensures m in a <==> m in b
    {
      assert m in multiset(a) <==> m in multiset(b);
    }
    forall k
      ensures k in Keys(a) <==> k in Keys(b)
      ensures k in Keys(a) ==> Reordered(Lookup(a, k), Lookup(b, k))
    {
      if k in Keys(a) {
        SameProperty(a, b, k);
        ReorderedItself(Lookup(a, k));
      }
      if k in Keys(b) {
        SameProperty(b, a, k);
      }
    }
  }

  lemma ProperKeys(members: seq<(string, Js)>)
    requires Proper(JsObj(members))
    ensures Distinct(Keys(members))
  {
  }

  lemma {:induction false} ReorderedItself(v: Js)
    ensures Reordered(v, v)
    decreases v
  {
    match v
    case JsArr(items) =>
      forall i | 0 <= i < |items|
        ensures Reordered(items[i], items[i])
      {
        ReorderedItself(items[i]);
      }
    case JsObj(members) =>
      forall k | k in Keys(members)
        ensures Reordered(Lookup(members, k), Lookup(members, k))
      {
        ReorderedItself(Lookup(members, k));
      }
    case _ =>
  }

  lemma {:induction false} KeysAt(members: seq<(string, Js)>)
    ensures |Keys(members)| == |members| && forall i :: 0 <= i < |members| ==> Keys(members)[i] == members[i].0
  {
    if members == [] {
    } else {
      KeysAt(members[1..]);
    }
  }

  /** A property of one list is the property of that name in any list with the same members. */
  lemma SameProperty(a: seq<(string, Js)>, b: seq<(string, Js)>, k: string)
    requires Distinct(Keys(a)) && Distinct(Keys(b)) && (forall m :: m in a <==> m in b) && k in Keys(a)
    ensures k in Keys(b) && Lookup(a, k) == Lookup(b, k)
  {
    hide Lookup;
    KeysAt(a);
    KeysAt(b);
    var i :| 0 <= i < |a| && a[i] == (k, Lookup(a, k));
    assert a[i] in b;
    var j :| 0 <= j < |b| && b[j] == a[i];
    assert Keys(b)[j] == k;
    var l :| 0 <= l < |b| && b[l] == (k, Lookup(b, k));
    assert Keys(b)[l] == k;
  }
}
