/**
 What JSON string texts mean, told without the parser: UTF-16 units as in section 7 of RFC
 8259, the two-character escapes, the one canonical escape of each character, and UTF-8.
 */
module JsonStrings {
  import opened Common
  import opened Text
  import opened Json
  import opened JsonText

  // ---------- \u escapes ----------

  /** The UTF-16 units of a scalar: one, or a high and a low surrogate. */
  function Utf16(c: char): seq<nat> {
    var n := c as int;
    if n < 0x10000 then [n] else [0xD800 + (n - 0x10000) / 0x400, 0xDC00 + (n - 0x10000) % 0x400]
  }

  const LOWER_HEX := "0123456789abcdef"
  const UPPER_HEX := "0123456789ABCDEF"

  function HexLetter(d: nat, upper: bool): char
    requires d < 16
  {
    if upper then UPPER_HEX[d] else LOWER_HEX[d]
  }

  /** A unit as `\u` and four hex digits, the first most significant, each of either case. */
  function UnitText(n: nat, upper: seq<bool>): (s: string)
    requires n < 0x10000 && |upper| == 4
    ensures |s| == 6
  {
    ['\\', 'u', HexLetter(n / 0x1000, upper[0]), HexLetter(n / 0x100 % 16, upper[1]),
     HexLetter(n / 0x10 % 16, upper[2]), HexLetter(n % 16, upper[3])]
  }

  /** Any text of a scalar in escaped units. */
  function UnitsText(c: char, upper: seq<bool>): string
    requires |upper| == 8
  {
    var units := Utf16(c);
    if |units| == 1 then UnitText(units[0], upper[..4])
    else UnitText(units[0], upper[..4]) + UnitText(units[1], upper[4..])
  }

  /** `c` in front of what the rest stands for. */
  function Before(c: char, rest: Option<string>): Option<string> {
    match rest
    case None => None
    case Some(text) => Some([c] + text)
  }

  lemma LetterValue(d: nat, upper: bool)
    requires d < 16
    ensures HexValue(HexLetter(d, upper)) == Some(d)
  {
  }

  lemma FourDigits(n: nat)
    requires n < 0x10000
    ensures ((n / 0x1000 * 16 + n / 0x100 % 16) * 16 + n / 0x10 % 16) * 16 + n % 16 == n
  {
    var a, b := n / 0x10, n / 0x100;
    assert n == 16 * a + n % 16 && a == 16 * b + a % 16 && b == 16 * (b / 16) + b % 16;
    assert b == a / 16 && b / 16 == n / 0x1000;
  }

  lemma Hex4Of(s: string, a: nat, b: nat, c: nat, d: nat)
    requires |s| >= 4 && a < 16 && b < 16 && c < 16 && d < 16
    requires HexValue(s[0]) == Some(a) && HexValue(s[1]) == Some(b)
    requires HexValue(s[2]) == Some(c) && HexValue(s[3]) == Some(d)
    ensures Hex4(s) == Some(((a * 16 + b) * 16 + c) * 16 + d)
  {
    hide HexValue;
  }

  lemma UnitLetters(n: nat, upper: seq<bool>, rest: string)
    requires n < 0x10000 && |upper| == 4
    ensures var s := (UnitText(n, upper) + rest)[2..];
      && |s| >= 4
      && s[0] == HexLetter(n / 0x1000, upper[0]) && s[1] == HexLetter(n / 0x100 % 16, upper[1])
      && s[2] == HexLetter(n / 0x10 % 16, upper[2]) && s[3] == HexLetter(n % 16, upper[3])
  {
    hide HexLetter;
  }

  lemma UnitReads(n: nat, upper: seq<bool>, rest: string)
    requires n < 0x10000 && |upper| == 4
    ensures Hex4((UnitText(n, upper) + rest)[2..]) == Some(n)
  {
    hide UnitText, HexLetter, HexValue, Hex4;
    UnitLetters(n, upper, rest);
    LetterValue(n / 0x1000, upper[0]);
    LetterValue(n / 0x100 % 16, upper[1]);
    LetterValue(n / 0x10 % 16, upper[2]);
    LetterValue(n % 16, upper[3]);
    Hex4Of((UnitText(n, upper) + rest)[2..], n / 0x1000, n / 0x100 % 16, n / 0x10 % 16, n % 16);
    FourDigits(n);
  }

  lemma SurrogateValues(c: char)
    requires c as int >= 0x10000
    ensures |Utf16(c)| == 2
    ensures 0xD800 <= Utf16(c)[0] < 0xDC00 && 0xDC00 <= Utf16(c)[1] < 0xE000
    ensures 0x10000 + (Utf16(c)[0] - 0xD800) * 0x400 + (Utf16(c)[1] - 0xDC00) == c as int
  {
  }

  lemma SecondUnit(high: nat, low: nat, upper: seq<bool>, rest: string)
    requires high < 0x10000 && low < 0x10000 && |upper| == 8
    ensures var s := UnitText(high, upper[..4]) + (UnitText(low, upper[4..]) + rest);
      && |s| >= 12 && s[0] == s[6] == '\\' && s[1] == s[7] == 'u'
      && s[8..] == (UnitText(low, upper[4..]) + rest)[2..]
  {
    hide HexLetter;
  }

  /** A pair of escaped units is the scalar whose UTF-16 they are, whatever follows. */
  lemma PairFirst(c: char, upper: seq<bool>, rest: string)
    requires |upper| == 8 && c as int >= 0x10000
    ensures FirstChar(UnitsText(c, upper) + rest) == Some((c, 12))
  {
    SurrogateValues(c);
    var high, low := Utf16(c)[0], Utf16(c)[1];
    var second := UnitText(low, upper[4..]) + rest;
    var s := UnitText(high, upper[..4]) + second;
    hide Hex4, UnitText, Utf16;
    assert UnitsText(c, upper) + rest == s;
    UnitReads(high, upper[..4], second);
    UnitReads(low, upper[4..], rest);
    SecondUnit(high, low, upper, rest);
    hide UnitsText;
  }

  lemma UnitFirst(c: char, upper: seq<bool>, rest: string)
    requires |upper| == 8 && (c as int) < 0x10000
    ensures FirstChar(UnitsText(c, upper) + rest) == Some((c, 6))
  {
    UnitReads(c as int, upper[..4], rest);
    var s := UnitText(c as int, upper[..4]) + rest;
    assert UnitsText(c, upper) + rest == s && s[0] == '\\' && s[1] == 'u';
    hide Hex4, UnitText, UnitsText, Utf16;
  }

  /** Every scalar written in escaped UTF-16 units reads as exactly that scalar. */
  lemma UnitsReadBack(c: char, upper: seq<bool>, rest: string)
    requires |upper| == 8
    ensures Unescape(UnitsText(c, upper) + rest) == Before(c, Unescape(rest))
  {
    var text := UnitsText(c, upper);
    if c as int < 0x10000 {
      UnitFirst(c, upper, rest);
    } else {
      PairFirst(c, upper, rest);
    }
    assert |text| == (if c as int < 0x10000 then 6 else 12);
    assert (text + rest)[|text|..] == rest;
    hide FirstChar, UnitsText;
  }

  /** A surrogate that is no half of a pair is refused. */
  lemma LoneSurrogateRefused(n: nat, upper: seq<bool>, rest: string)
    requires 0xD800 <= n < 0xE000 && |upper| == 4
    requires n < 0xDC00 ==> forall m, more, tail :: 0xDC00 <= m < 0xE000 && |more| == 4 ==>
      rest != UnitText(m, more) + tail
    ensures Unescape(UnitText(n, upper) + rest).None?
  {
    UnitReads(n, upper, rest);
    var s := UnitText(n, upper) + rest;
    assert s[0] == '\\' && s[1] == 'u' && s[6..] == rest;
    if n < 0xDC00 && |s| >= 12 && s[6] == '\\' && s[7] == 'u' && Hex4(s[8..]).Some? {
      var m := Hex4(s[8..]).value;
      if 0xDC00 <= m < 0xE000 {
        assert s[8..] == rest[2..];
        var more := UnitFound(rest, m);
        assert false;
      }
    }
  }

  /** Four hex digits behind `\u` are a text of their value. */
  lemma UnitFound(rest: string, m: nat) returns (upper: seq<bool>)
    requires |rest| >= 6 && rest[0] == '\\' && rest[1] == 'u' && Hex4(rest[2..]) == Some(m) && m < 0x10000
    ensures |upper| == 4 && rest == UnitText(m, upper) + rest[6..]
  {
    var s := rest[2..];
    assert s[0] == rest[2] && s[1] == rest[3] && s[2] == rest[4] && s[3] == rest[5];
    upper := DigitsFound(s, m);
    hide Hex4, HexLetter;
    assert rest == rest[..6] + rest[6..];
    assert rest[..6] == UnitText(m, upper);
  }

  lemma Hex4Digits(s: string)
    requires Hex4(s).Some?
    ensures |s| >= 4 && forall i :: 0 <= i < 4 ==> HexValue(s[i]).Some? && HexValue(s[i]).value < 16
    ensures Hex4(s).value ==
      ((HexValue(s[0]).value * 16 + HexValue(s[1]).value) * 16 + HexValue(s[2]).value) * 16 + HexValue(s[3]).value
  {
    hide HexValue;
  }

  lemma DigitsFound(s: string, m: nat) returns (upper: seq<bool>)
    requires |s| >= 4 && Hex4(s) == Some(m) && m < 0x10000
    ensures |upper| == 4
    ensures s[0] == HexLetter(m / 0x1000, upper[0]) && s[1] == HexLetter(m / 0x100 % 16, upper[1])
    ensures s[2] == HexLetter(m / 0x10 % 16, upper[2]) && s[3] == HexLetter(m % 16, upper[3])
  {
    hide HexValue, HexLetter, Hex4;
    Hex4Digits(s);
    Positions(HexValue(s[0]).value, HexValue(s[1]).value, HexValue(s[2]).value, HexValue(s[3]).value);
    LetterFound(s[0]);
    LetterFound(s[1]);
    LetterFound(s[2]);
    LetterFound(s[3]);
    upper := ['A' <= s[0] <= 'F', 'A' <= s[1] <= 'F', 'A' <= s[2] <= 'F', 'A' <= s[3] <= 'F'];
  }

  lemma LetterFound(c: char)
    requires HexValue(c).Some?
    ensures HexValue(c).value < 16 && HexLetter(HexValue(c).value, 'A' <= c <= 'F') == c
  {
  }

  lemma Positions(a: nat, b: nat, c: nat, d: nat)
    requires a < 16 && b < 16 && c < 16 && d < 16
    ensures var m := ((a * 16 + b) * 16 + c) * 16 + d;
      m / 0x1000 == a && m / 0x100 % 16 == b && m / 0x10 % 16 == c && m % 16 == d
  {
    var m := ((a * 16 + b) * 16 + c) * 16 + d;
    assert m / 16 == (a * 16 + b) * 16 + c && m / 0x100 == a * 16 + b;
  }

  // ---------- the other characters ----------

  /** What each of the eight two-character escapes stands for. */
  lemma ShortEscapes(rest: string)
    ensures Unescape("\\\"" + rest) == Before('"', Unescape(rest))
    ensures Unescape("\\\\" + rest) == Before('\\', Unescape(rest))
    ensures Unescape("\\/" + rest) == Before('/', Unescape(rest))
    ensures Unescape("\\b" + rest) == Before(8 as char, Unescape(rest))
    ensures Unescape("\\f" + rest) == Before(12 as char, Unescape(rest))
    ensures Unescape("\\n" + rest) == Before(10 as char, Unescape(rest))
    ensures Unescape("\\r" + rest) == Before(13 as char, Unescape(rest))
    ensures Unescape("\\t" + rest) == Before(9 as char, Unescape(rest))
  {
    hide Unescape, Before, Simple;
    Letters();
    SimpleLetters();
    ShortEscape('"', '"', rest);
    ShortEscape('\\', '\\', rest);
    ShortEscape('/', '/', rest);
    ShortEscape('b', 8 as char, rest);
    ShortEscape('f', 12 as char, rest);
    ShortEscape('n', 10 as char, rest);
    ShortEscape('r', 13 as char, rest);
    ShortEscape('t', 9 as char, rest);
  }

  lemma Letters()
    ensures "\\\"" == ['\\', '"'] && "\\\\" == ['\\', '\\'] && "\\/" == ['\\', '/'] && "\\b" == ['\\', 'b']
    ensures "\\f" == ['\\', 'f'] && "\\n" == ['\\', 'n'] && "\\r" == ['\\', 'r'] && "\\t" == ['\\', 't']
  {
  }

  lemma SimpleLetters()
    ensures Simple('"') == Some('"') && Simple('\\') == Some('\\') && Simple('/') == Some('/')
    ensures Simple('b') == Some(8 as char) && Simple('f') == Some(12 as char) && Simple('n') == Some(10 as char)
    ensures Simple('r') == Some(13 as char) && Simple('t') == Some(9 as char)
  {
  }

  lemma ShortEscape(letter: char, c: char, rest: string)
    requires letter != 'u' && Simple(letter) == Some(c)
    ensures Unescape(['\\', letter] + rest) == Before(c, Unescape(rest))
  {
    var s := ['\\', letter] + rest;
    assert FirstChar(s) == Some((c, 2)) && s[2..] == rest;
  }

  /** No other letter may follow a backslash. */
  lemma NoEscape(c: char, rest: string)
    requires c !in "\"\\/bfnrtu"
    ensures Unescape(['\\', c] + rest).None?
  {
    var s := ['\\', c] + rest;
    assert s[1] == c && c != 'u';
    var known := "\"\\/bfnrtu";
    assert known[0] == '"' && known[1] == '\\' && known[2] == '/' && known[3] == 'b' && known[4] == 'f';
    assert known[5] == 'n' && known[6] == 'r' && known[7] == 't' && known[8] == 'u';
    assert FirstChar(s).None?;
  }

  /** Any other character stands for itself; quotes and control characters must be escaped. */
  lemma PlainCharacter(c: char, rest: string)
    requires c != '\\'
    ensures Unescape([c] + rest) == if c == '"' || (c as int) < 0x20 then None else Before(c, Unescape(rest))
  {
    assert ([c] + rest)[1..] == rest;
  }

  /**
   The canonical escape of each character: two characters where there is a short one, but
   never for a slash; `\u00` and two lower-case digits for the other control characters;
   itself for all the rest.
   */
  lemma CanonicalEscape(c: char)
    ensures c as int == 0x22 ==> EscapeChar(c) == ['\\', c]
    ensures c as int == 0x5C ==> EscapeChar(c) == ['\\', c]
    ensures c as int in {8, 9, 10, 12, 13} ==>
      |EscapeChar(c)| == 2 && Unescape(EscapeChar(c)) == Some([c])
    ensures (c as int) < 0x20 && c as int !in {8, 9, 10, 12, 13} ==>
      EscapeChar(c) == "\\u00" + [LOWER_HEX[c as int / 16], LOWER_HEX[c as int % 16]]
    ensures c as int >= 0x20 && c as int != 0x22 && c as int != 0x5C ==> EscapeChar(c) == [c]
  {
    if c as int in {8, 9, 10, 12, 13} {
      ShortLetters(c);
    }
  }

  lemma ShortLetters(c: char)
    requires c as int in {8, 9, 10, 12, 13}
    ensures exists letter :: letter != 'u' && EscapeChar(c) == ['\\', letter] && Simple(letter) == Some(c)
    ensures Unescape(EscapeChar(c)) == Some([c])
  {
    var letter := EscapeChar(c)[1];
    assert Simple(letter) == Some(c) && letter != 'u' && EscapeChar(c) == ['\\', letter];
    ShortEscape(letter, c, "");
    assert EscapeChar(c) + "" == EscapeChar(c) && [c] + "" == [c];
  }

  /** Only the four characters of section 2 of RFC 8259 are white space. */
  lemma WhiteSpace(c: char)
    ensures IsSpace(c) <==> c as int in {0x20, 0x09, 0x0A, 0x0D}
  {
  }

  // ---------- numerals ----------

  function TenTo(n: nat): nat {
    if n == 0 then 1 else 10 * TenTo(n - 1)
  }

  ghost predicate AllDigits(s: string) {
    forall i :: 0 <= i < |s| ==> IsDigit(s[i])
  }

  lemma Regroup(x: nat, p: nat, y: nat, d: nat)
    ensures 10 * (x * p + y) + d == x * (10 * p) + (10 * y + d)
  {
  }

  /** Decimal digits count from the left by powers of ten, each for its own value. */
  lemma {:induction false} NumeralAppends(a: string, b: string)
    requires AllDigits(a) && AllDigits(b)
    ensures AllDigits(a + b) && Numeral(a + b) == Numeral(a) * TenTo(|b|) + Numeral(b)
    decreases |b|
  {
    if b == "" {
      assert a + b == a;
    } else {
      var init, last := b[..|b| - 1], b[|b| - 1];
      NumeralAppends(a, init);
      assert (a + b)[..|a + b| - 1] == a + init && (a + b)[|a + b| - 1] == last;
      Regroup(Numeral(a), TenTo(|init|), Numeral(init), last as int - 48);
    }
  }

  lemma NumeralDigits(d: nat)
    requires d < 10
    ensures IsDigit("0123456789"[d]) && Numeral(["0123456789"[d]]) == d
  {
    var s := ["0123456789"[d]];
    assert s[..0] == "";
  }

  // ---------- UTF-8 ----------

  /** The number whose six-bit digits the continuation bytes are. */
  function Continued(lead: int, bytes: seq<nat>): int {
    if bytes == [] then lead
    else Continued(lead, bytes[..|bytes| - 1]) * 0x40 + (bytes[|bytes| - 1] as int - 0x80)
  }

  /** The bytes of a scalar carry its bits, the lead byte their number, as in section 3 of RFC 3629. */
  lemma Utf8Decodes(c: char)
    ensures var b, n := Utf8Char(c), c as int;
      && |b| == (if n < 0x80 then 1 else if n < 0x800 then 2 else if n < 0x10000 then 3 else 4)
      && (|b| > 1 ==> forall i :: 1 <= i < |b| ==> 0x80 <= b[i] < 0xC0)
      && n == Continued(b[0] - (if |b| == 1 then 0 else if |b| == 2 then 0xC0 else if |b| == 3 then 0xE0 else 0xF0),
                        b[1..])
  {
    var b := Utf8Char(c);
    LeadByte(c);
    if |b| == 2 {
      ContinuedOne(b[0] - 0xC0, b[1]);
      assert b[1..] == [b[1]];
    } else if |b| == 3 {
      ContinuedTwo(b[0] - 0xE0, b[1], b[2]);
      assert b[1..] == [b[1], b[2]];
    } else if |b| == 4 {
      ContinuedThree(b[0] - 0xF0, b[1], b[2], b[3]);
      assert b[1..] == [b[1], b[2], b[3]];
    }
  }

  lemma ContinuedOne(lead: int, x: nat)
    ensures Continued(lead, [x]) == lead * 0x40 + (x as int - 0x80)
  {
    assert [x][..0] == [];
  }

  lemma ContinuedTwo(lead: int, x: nat, y: nat)
    ensures Continued(lead, [x, y]) == (lead * 0x40 + (x as int - 0x80)) * 0x40 + (y as int - 0x80)
  {
    assert [x, y][..1] == [x];
    ContinuedOne(lead, x);
  }

  lemma ContinuedThree(lead: int, x: nat, y: nat, z: nat)
    ensures Continued(lead, [x, y, z]) ==
      ((lead * 0x40 + (x as int - 0x80)) * 0x40 + (y as int - 0x80)) * 0x40 + (z as int - 0x80)
  {
    assert [x, y, z][..2] == [x, y];
    ContinuedTwo(lead, x, y);
  }
}
