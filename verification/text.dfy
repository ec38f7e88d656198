/**
 Strings as the repository orders and prints them: decimal numerals, and the
 byte order of UTF-8 encodings that sorts object keys and map entries.
 */
module Text {
  import opened Common

  // ---------- decimal numerals ----------

  function Digit(d: nat): char
    requires d < 10
  {
    (48 + d) as char
  }

  predicate IsDigit(c: char) {
    '0' <= c <= '9'
  }

  function Decimal(n: nat): string {
    if n < 10 then [Digit(n)] else Decimal(n / 10) + [Digit(n % 10)]
  }

  /** The number a string of digits stands for. */
  function Numeral(s: string): nat
    requires forall i :: 0 <= i < |s| ==> IsDigit(s[i])
  {
    if s == [] then 0
    else
      assert IsDigit(s[|s| - 1]);
      10 * Numeral(s[..|s| - 1]) + (s[|s| - 1] as int - 48)
  }

  lemma {:induction false} DecimalRoundTrip(n: nat)
    ensures Decimal(n) != []
    ensures forall i :: 0 <= i < |Decimal(n)| ==> IsDigit(Decimal(n)[i])
    ensures Numeral(Decimal(n)) == n
    ensures Decimal(n)[0] == '0' ==> n == 0
  {
    if n >= 10 {
      DecimalRoundTrip(n / 10);
      assert Decimal(n)[..|Decimal(n)| - 1] == Decimal(n / 10);
    } else {
      assert Decimal(n)[..0] == [];
    }
  }

  lemma DecimalInjective(m: nat, n: nat)
    requires Decimal(m) == Decimal(n)
    ensures m == n
  {
    DecimalRoundTrip(m);
    DecimalRoundTrip(n);
  }

  // ---------- UTF-8 and its byte order ----------

  function Utf8Char(c: char): (bytes: seq<nat>)
    ensures 1 <= |bytes| <= 4
  {
    var n := c as int;
    var n1 := n / 0x40;
    var n2 := n1 / 0x40;
    if n < 0x80 then [n]
    else if n < 0x800 then [0xC0 + n1, 0x80 + n % 0x40]
    else if n < 0x10000 then [0xE0 + n2, 0x80 + n1 % 0x40, 0x80 + n % 0x40]
    else [0xF0 + n2 / 0x40, 0x80 + n2 % 0x40, 0x80 + n1 % 0x40, 0x80 + n % 0x40]
  }

  function Utf8(s: string): seq<nat> {
    if s == [] then [] else Utf8Char(s[0]) + Utf8(s[1..])
  }

  /** Lexicographic order of byte strings: what `as_bytes().cmp` decides. */
  predicate BytesLess(a: seq<nat>, b: seq<nat>) {
    b != [] && (a == [] || a[0] < b[0] || (a[0] == b[0] && BytesLess(a[1..], b[1..])))
  }

  predicate Less(a: string, b: string) {
    BytesLess(Utf8(a), Utf8(b))
  }

  /** Lexicographic order by Unicode scalar value. */
  predicate ScalarLess(a: string, b: string) {
    b != [] && (a == [] || a[0] < b[0] || (a[0] == b[0] && ScalarLess(a[1..], b[1..])))
  }

  lemma {:induction false} CommonPrefix(p: seq<nat>, a: seq<nat>, b: seq<nat>)
    ensures BytesLess(p + a, p + b) == BytesLess(a, b)
  {
    if p == [] {
      assert p + a == a && p + b == b;
    } else {
      assert (p + a)[1..] == p[1..] + a && (p + b)[1..] == p[1..] + b;
      CommonPrefix(p[1..], a, b);
    }
  }

  /** The bytes at which two byte strings first differ decide their order. */
  lemma {:induction false} FirstDifference(a: seq<nat>, b: seq<nat>, k: nat)
    requires k < |a| && k < |b| && a[..k] == b[..k] && a[k] < b[k]
    ensures BytesLess(a, b) && !BytesLess(b, a)
  {
    if k == 0 {
    } else {
      assert a[0] == a[..k][0] && b[0] == b[..k][0];
      assert a[1..][..k - 1] == a[..k][1..] && b[1..][..k - 1] == b[..k][1..];
      FirstDifference(a[1..], b[1..], k - 1);
    }
  }

  /** The order of two numbers is that of their six low bits if the rest agrees, else that of the rest. */
  lemma SixBits(m: nat, n: nat)
    requires m <= n
    ensures m / 0x40 <= n / 0x40
    ensures m < n && m / 0x40 == n / 0x40 ==> m % 0x40 < n % 0x40
  {
  }

  /** The lead byte tells the length of an encoding. */
  lemma LeadByte(c: char)
    ensures var x, n := Utf8Char(c), c as int;
      && (|x| == 1 ==> n < 0x80 && x[0] < 0x80)
      && (|x| == 2 ==> 0x80 <= n < 0x800 && 0xC0 <= x[0] < 0xE0)
      && (|x| == 3 ==> 0x800 <= n < 0x10000 && 0xE0 <= x[0] < 0xF0)
      && (|x| == 4 ==> 0x10000 <= n && 0xF0 <= x[0])
      && 1 <= |x| <= 4
  {
  }

  lemma LeadOrder(c: char, d: char)
    requires c < d
    ensures var x, y := Utf8Char(c), Utf8Char(d); x[0] <= y[0] && (x[0] == y[0] ==> |x| == |y|)
  {
    LeadByte(c);
    LeadByte(d);
    if |Utf8Char(c)| == |Utf8Char(d)| {
      var m, n := c as int, d as int;
      SixBits(m, n);
      SixBits(m / 0x40, n / 0x40);
      SixBits(m / 0x40 / 0x40, n / 0x40 / 0x40);
    } else {
      hide Utf8Char;
    }
  }

  /** Encodings of different scalars differ inside both, in scalar order. */
  lemma CharOrder(c: char, d: char) returns (k: nat)
    requires c < d
    ensures k < |Utf8Char(c)| && k < |Utf8Char(d)|
    ensures Utf8Char(c)[..k] == Utf8Char(d)[..k] && Utf8Char(c)[k] < Utf8Char(d)[k]
  {
    LeadOrder(c, d);
    if Utf8Char(c)[0] != Utf8Char(d)[0] {
      k := 0;
    } else {
      k := TailOrder(c, d);
    }
  }

  lemma TailOrder(c: char, d: char) returns (k: nat)
    requires c < d && Utf8Char(c)[0] == Utf8Char(d)[0] && |Utf8Char(c)| == |Utf8Char(d)|
    ensures k < |Utf8Char(c)|
    ensures Utf8Char(c)[..k] == Utf8Char(d)[..k] && Utf8Char(c)[k] < Utf8Char(d)[k]
  {
    var m, n := c as int, d as int;
    SixBits(m, n);
    SixBits(m / 0x40, n / 0x40);
    SixBits(m / 0x40 / 0x40, n / 0x40 / 0x40);
    k := |Utf8Char(c)| - 1;
    if m / 0x40 != n / 0x40 {
      k := k - 1;
      if m / 0x40 / 0x40 != n / 0x40 / 0x40 {
        k := k - 1;
      }
    }
  }

  lemma {:induction false} Utf8OrderIsScalarOrder(a: string, b: string)
    ensures Less(a, b) <==> ScalarLess(a, b)
  {
    if a == [] || b == [] {
    } else {
      var x, y := Utf8Char(a[0]), Utf8Char(b[0]);
      if a[0] == b[0] {
        CommonPrefix(x, Utf8(a[1..]), Utf8(b[1..]));
        Utf8OrderIsScalarOrder(a[1..], b[1..]);
      } else if a[0] < b[0] {
        var k := CharOrder(a[0], b[0]);
        assert Utf8(a)[..k] == x[..k] && Utf8(b)[..k] == y[..k];
        FirstDifference(Utf8(a), Utf8(b), k);
      } else {
        var k := CharOrder(b[0], a[0]);
        assert Utf8(a)[..k] == x[..k] && Utf8(b)[..k] == y[..k];
        FirstDifference(Utf8(b), Utf8(a), k);
      }
    }
  }

  // ---------- the order as a strict total order ----------

  lemma {:induction false} ScalarLessTotal(a: string, b: string)
    ensures !(ScalarLess(a, b) && ScalarLess(b, a))
    ensures ScalarLess(a, b) || ScalarLess(b, a) || a == b
    ensures !ScalarLess(a, a)
  {
    if a == [] {
    } else {
      ScalarLessTotal(a[1..], if b != [] then b[1..] else []);
      if b != [] && a[0] == b[0] && a[1..] == b[1..] {
        assert a == [a[0]] + a[1..] && b == [b[0]] + b[1..];
      }
    }
  }

  lemma {:induction false} ScalarLessTransitive(a: string, b: string, c: string)
    requires ScalarLess(a, b) && ScalarLess(b, c)
    ensures ScalarLess(a, c)
  {
    if a == [] || !(a[0] == b[0] == c[0]) {
    } else {
      ScalarLessTransitive(a[1..], b[1..], c[1..]);
    }
  }

  /** Byte order of UTF-8 keys is a strict total order, so it separates any two keys. */
  lemma LessTotal(a: string, b: string)
    ensures !(Less(a, b) && Less(b, a))
    ensures Less(a, b) || Less(b, a) || a == b
    ensures !Less(a, a)
  {
    Utf8OrderIsScalarOrder(a, b);
    Utf8OrderIsScalarOrder(b, a);
    Utf8OrderIsScalarOrder(a, a);
    ScalarLessTotal(a, b);
  }

  lemma LessTransitive(a: string, b: string, c: string)
    requires Less(a, b) && Less(b, c)
    ensures Less(a, c)
  {
    Utf8OrderIsScalarOrder(a, b);
    Utf8OrderIsScalarOrder(b, c);
    Utf8OrderIsScalarOrder(a, c);
    ScalarLessTransitive(a, b, c);
  }

  // ---------- the key sequence of a sorted map ----------

  ghost predicate Ascending(keys: seq<string>) {
    forall i, j :: 0 <= i < j < |keys| ==> Less(keys[i], keys[j])
  }

  ghost predicate IsLeast(m: string, s: set<string>) {
    m in s && forall k :: k in s && k != m ==> Less(m, k)
  }

  lemma {:induction false} LeastExists(s: set<string>) returns (m: string)
    requires s != {}
    ensures IsLeast(m, s)
  {
    var k :| k in s;
    if s == {k} {
      m := k;
    } else {
      var rest := s - {k};
      var l := LeastExists(rest);
      LessTotal(k, l);
      m := if Less(k, l) then k else l;
      forall x | x in s && x != m
        ensures Less(m, x)
      {
        if m == k && x != l {
          LessTransitive(k, l, x);
        }
      }
    }
  }

  lemma HasLeast(s: set<string>)
    requires s != {}
    ensures exists m :: IsLeast(m, s)
  {
    var m := LeastExists(s);
  }

  ghost function Least(s: set<string>): (m: string)
    requires s != {}
    ensures IsLeast(m, s)
  {
    HasLeast(s);
    var m :| IsLeast(m, s);
    m
  }

  lemma ConsAscending(m: string, rest: seq<string>, others: set<string>)
    requires Ascending(rest) && Elements(rest) == others
    requires forall k :: k in others ==> Less(m, k)
    ensures Ascending([m] + rest) && Elements([m] + rest) == {m} + others
  {
    assert forall k :: k in rest ==> k in Elements(rest);
    var keys := [m] + rest;
    forall i, j | 0 <= i < j < |keys|
      ensures Less(keys[i], keys[j])
    {
      assert keys[j] == rest[j - 1] && rest[j - 1] in rest;
    }
  }

  /** The keys of a map in the order a byte-sorted map iterates them. */
  ghost function SortedKeys(s: set<string>): (keys: seq<string>)
    ensures Ascending(keys) && Elements(keys) == s && |keys| == |s|
  {
    if s == {} then []
    else
      var m := Least(s);
      var rest := SortedKeys(s - {m});
      ConsAscending(m, rest, s - {m});
      [m] + rest
  }

  lemma {:induction false} AscendingUnique(a: seq<string>, b: seq<string>)
    requires Ascending(a) && Ascending(b) && Elements(a) == Elements(b)
    ensures a == b
  {
    if a == [] {
      if b != [] {
        HasElement(b);
      }
    } else {
      HasElement(a);
      assert a[0] in Elements(a) && b != [];
      assert b[0] in Elements(a);
      LessTotal(a[0], b[0]);
      assert a[0] == b[0];
      forall x
        ensures x in Elements(a[1..]) <==> x in Elements(b[1..])
      {
        LessTotal(a[0], a[0]);
        assert x in Elements(a) <==> x == a[0] || x in a[1..];
        assert x in Elements(b) <==> x == b[0] || x in b[1..];
        assert a[0] !in a[1..] && b[0] !in b[1..];
      }
      AscendingUnique(a[1..], b[1..]);
      assert a == [a[0]] + a[1..] && b == [b[0]] + b[1..];
    }
  }

  // ---------- sorting a key listing ----------

  function Insert(k: string, sorted: seq<string>): seq<string> {
    if sorted == [] then [k]
    else if Less(k, sorted[0]) then [k] + sorted
    else [sorted[0]] + Insert(k, sorted[1..])
  }

  function Sort(keys: seq<string>): seq<string> {
    if keys == [] then [] else Insert(keys[0], Sort(keys[1..]))
  }

  lemma {:induction false} InsertAscending(k: string, sorted: seq<string>)
    requires Ascending(sorted) && k !in sorted
    ensures Ascending(Insert(k, sorted))
    ensures Elements(Insert(k, sorted)) == {k} + Elements(sorted)
  {
    hide Less;
    if sorted == [] {
    } else {
      var h, t := sorted[0], sorted[1..];
      LessTotal(k, h);
      HeadAndRest(sorted);
      if Less(k, h) {
        forall x | x in sorted
          ensures Less(k, x)
        {
          if x != h {
            LessTransitive(k, h, x);
          }
        }
        ConsAscending(k, sorted, Elements(sorted));
      } else {
        InsertAscending(k, t);
        ConsAscending(h, Insert(k, t), Elements(Insert(k, t)));
      }
    }
  }

  lemma HeadAndRest(s: seq<string>)
    requires s != []
    ensures Elements(s) == {s[0]} + Elements(s[1..])
    ensures forall x :: x in s <==> x == s[0] || x in s[1..]
  {
    assert s == [s[0]] + s[1..];
  }

  /** Sorting any listing of a key set gives the one ascending sequence. */
  lemma {:induction false} SortIsSortedKeys(keys: seq<string>)
    requires Distinct(keys)
    ensures Sort(keys) == SortedKeys(Elements(keys))
  {
    SortAscending(keys);
    AscendingUnique(Sort(keys), SortedKeys(Elements(keys)));
  }

  lemma {:induction false} SortAscending(keys: seq<string>)
    requires Distinct(keys)
    ensures Ascending(Sort(keys)) && Elements(Sort(keys)) == Elements(keys)
  {
    if keys == [] {
    } else {
      SortAscending(keys[1..]);
      assert keys[0] !in keys[1..];
      assert Elements(keys) == {keys[0]} + Elements(keys[1..]);
      assert keys[0] !in Elements(Sort(keys[1..]));
      InsertAscending(keys[0], Sort(keys[1..]));
    }
  }

  /** Collecting strings into a sorted set lists them in byte order. */
  method SortKeys(s: set<string>) returns (keys: seq<string>)
    ensures keys == SortedKeys(s)
  {
    keys := [];
    var left := s;
    while left != {}
      invariant left <= s && Ascending(keys) && Elements(keys) == s - left
    {
      var key :| key in left;
      assert key !in Elements(keys);
      InsertAscending(key, keys);
      keys := Insert(key, keys);
      left := left - {key};
    }
    AscendingUnique(keys, SortedKeys(s));
  }
}
