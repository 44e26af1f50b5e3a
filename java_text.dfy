/**
 * The parts of java.lang that the conversion engine leans on, written out:
 * String.trim, replaceAll of a single character, endsWith, equalsIgnoreCase
 * and toUpperCase on ASCII letters, the decimal Integer/Long parsers and
 * printers, string concatenation of a null reference, and the UTF-8 encoder
 * behind String.getBytes("UTF-8").
 */
module JavaText {
  import opened Wrappers

  newtype byte = x: int | 0 <= x < 256

  const INT_MIN: int := -0x8000_0000
  const INT_MAX: int := 0x7FFF_FFFF
  const LONG_MIN: int := -0x8000_0000_0000_0000
  const LONG_MAX: int := 0x7FFF_FFFF_FFFF_FFFF

  /** What `"..." + ref` and `String.format("%s", ref)` produce: "null" for a null reference. */
  function JavaStr(s: Option<string>): (r: string)
    ensures s.Some? ==> r == s.value
    ensures s.None? ==> r == "null"
  {
    if s.Some? then s.value else "null"
  }

  // ---------------------------------------------------------------- trim

  /** String.trim treats every character up to U+0020 as removable. */
  predicate IsTrimmable(c: char) {
    c <= ' '
  }

  function TrimStart(s: string): (r: string)
    ensures |r| <= |s| && r == s[|s| - |r|..]
    ensures r == [] || !IsTrimmable(r[0])
    ensures forall i :: 0 <= i < |s| - |r| ==> IsTrimmable(s[i])
  {
    if s != [] && IsTrimmable(s[0]) then TrimStart(s[1..]) else s
  }

  function TrimEnd(s: string): (r: string)
    ensures |r| <= |s| && r == s[..|r|]
    ensures r == [] || !IsTrimmable(r[|r| - 1])
    ensures forall i :: |r| <= i < |s| ==> IsTrimmable(s[i])
  {
    if s != [] && IsTrimmable(s[|s| - 1]) then TrimEnd(s[..|s| - 1]) else s
  }

  /** String.trim: drop the removable characters at both ends. */
  function Trim(s: string): (r: string)
    ensures |r| <= |s|
    ensures r == [] || (!IsTrimmable(r[0]) && !IsTrimmable(r[|r| - 1]))
    ensures r == [] <==> forall i :: 0 <= i < |s| ==> IsTrimmable(s[i])
  {
    var t := TrimStart(s);
    assert forall i :: |s| - |t| <= i < |s| ==> s[i] == t[i - (|s| - |t|)];
    TrimEnd(t)
  }

  /**
   * What String.trim returns is a slice s[i..j] of its input whose outside
   * is all removable characters: nothing but the ends is cut.
   */
  lemma TrimCutsEnds(s: string)
    ensures exists i, j ::
      && 0 <= i <= j <= |s| && Trim(s) == s[i..j]
      && (forall k :: 0 <= k < i ==> IsTrimmable(s[k]))
      && (forall k :: j <= k < |s| ==> IsTrimmable(s[k]))
  {
    var t := TrimStart(s);
    var i := |s| - |t|;
    var r := TrimEnd(t);
    var j := i + |r|;
    assert Trim(s) == s[i..j] by {
      assert t == s[i..];
      assert r == t[..|r|];
    }
    assert forall k :: j <= k < |s| ==> IsTrimmable(s[k]) by {
      forall k | j <= k < |s|
        ensures IsTrimmable(s[k])
      {
        assert s[k] == t[k - i];
      }
    }
  }

  // ------------------------------------------------- replaceAll("/", "")

  /** `s.replaceAll(c, "")` for a pattern that is one ordinary character. */
  function RemoveAll(s: string, c: char): (r: string)
    ensures c !in r
    ensures |r| <= |s|
    ensures c !in s ==> r == s
    ensures forall i :: 0 <= i < |r| ==> r[i] in s
    decreases |s|
  {
    if s == [] then []
    else
      var front := s[..|s| - 1];
      if s[|s| - 1] == c then RemoveAll(front, c)
      else RemoveAll(front, c) + [s[|s| - 1]]
  }

  /** Every occurrence of c goes and every other character keeps its count. */
  lemma {:induction false} RemoveAllCounts(s: string, c: char)
    ensures multiset(RemoveAll(s, c)) == multiset(s)[c := 0]
    decreases |s|
  {
    if s != [] {
      var front := s[..|s| - 1];
      assert s == front + [s[|s| - 1]];
      RemoveAllCounts(front, c);
    }
  }

  /** replaceAll works piecewise, so the characters other than c survive in order. */
  lemma {:induction false} RemoveAllAppend(a: string, b: string, c: char)
    ensures RemoveAll(a + b, c) == RemoveAll(a, c) + RemoveAll(b, c)
    decreases |b|
  {
    if b == [] {
      assert a + b == a;
    } else {
      var front := b[..|b| - 1];
      assert (a + b)[..|a + b| - 1] == a + front;
      RemoveAllAppend(a, front, c);
    }
  }

  /** replaceAll on a single character: deleted when it is c, kept otherwise. */
  lemma RemoveAllChar(x: char, c: char)
    ensures RemoveAll([x], c) == if x == c then [] else [x]
  {
    assert [x][..0] == [];
  }

  /** String.endsWith. */
  predicate EndsWith(s: string, suffix: string) {
    |suffix| <= |s| && s[|s| - |suffix|..] == suffix
  }

  // ------------------------------------------------------ ASCII case rules

  function LowerAscii(c: char): char {
    if 'A' <= c <= 'Z' then (c as int + 32) as char else c
  }

  function UpperAscii(c: char): char {
    if 'a' <= c <= 'z' then (c as int - 32) as char else c
  }

  /** String.toUpperCase, restricted to the ASCII letters. */
  function ToUpperAscii(s: string): (r: string)
    ensures |r| == |s|
    ensures forall i :: 0 <= i < |s| ==> r[i] == UpperAscii(s[i])
  {
    seq(|s|, i requires 0 <= i < |s| => UpperAscii(s[i]))
  }

  /**
   * String.equalsIgnoreCase, restricted to the ASCII letters: it compares
   * lower-cased characters, and agrees with comparing the upper-cased strings.
   */
  function EqualsIgnoreCaseAscii(a: string, b: string): (r: bool)
    ensures r <==> ToUpperAscii(a) == ToUpperAscii(b)
  {
    var r := |a| == |b| && forall i :: 0 <= i < |a| ==> LowerAscii(a[i]) == LowerAscii(b[i]);
    assert r ==> ToUpperAscii(a) == ToUpperAscii(b) by {
      if r {
        forall i | 0 <= i < |a| ensures ToUpperAscii(a)[i] == ToUpperAscii(b)[i] {
          assert LowerAscii(a[i]) == LowerAscii(b[i]);
        }
      }
    }
    assert ToUpperAscii(a) == ToUpperAscii(b) ==> r by {
      if ToUpperAscii(a) == ToUpperAscii(b) {
        forall i | 0 <= i < |a| ensures LowerAscii(a[i]) == LowerAscii(b[i]) {
          assert ToUpperAscii(a)[i] == ToUpperAscii(b)[i];
        }
      }
    }
    r
  }

  // ------------------------------------------------ decimal numbers

  predicate IsDigit(c: char) {
    '0' <= c <= '9'
  }

  predicate AllDigits(s: string) {
    forall i :: 0 <= i < |s| ==> IsDigit(s[i])
  }

  function DigitChar(d: int): (c: char)
    requires 0 <= d < 10
    ensures IsDigit(c) && c as int - '0' as int == d
  {
    ('0' as int + d) as char
  }

  /** The decimal digits of a natural number, without leading zeros. */
  function NatToDecimal(n: nat): (r: string)
    ensures |r| > 0 && AllDigits(r)
    ensures r[0] == '0' ==> n == 0 && r == "0"
    decreases n
  {
    if n < 10 then [DigitChar(n)] else NatToDecimal(n / 10) + [DigitChar(n % 10)]
  }

  /** Long.toString, Integer.toString and String.valueOf(long) in radix 10. */
  function IntToDecimal(n: int): (r: string)
    ensures |r| > 0
  {
    if n < 0 then "-" + NatToDecimal(-n) else NatToDecimal(n)
  }

  /** The value of a string of decimal digits. */
  function DigitsValue(s: string): nat
    requires AllDigits(s)
  {
    if s == [] then 0 else DigitsValue(s[..|s| - 1]) * 10 + (s[|s| - 1] as int - '0' as int)
  }

  /** One or more ASCII digits. */
  predicate IsUnsignedText(s: string) {
    |s| > 0 && AllDigits(s)
  }

  /** A '-' followed by one or more ASCII digits. */
  predicate IsNegativeText(s: string) {
    |s| > 1 && s[0] == '-' && AllDigits(s[1..])
  }

  /** The number a well-formed decimal text denotes. */
  function TextValue(s: string): int
    requires IsUnsignedText(s) || IsNegativeText(s)
  {
    if s[0] == '-' then -(DigitsValue(s[1..]) as int) else DigitsValue(s)
  }

  /**
   * Integer.parseInt / Long.parseLong in radix 10, as the Java 6 class
   * library has them: an optional '-', then one or more ASCII digits, and a
   * value inside [lo, hi]; anything else (a '+' sign included) is a
   * NumberFormatException, here None.
   */
  function ParseDecimal(s: string, lo: int, hi: int): (r: Option<int>)
    ensures r.Some? ==> lo <= r.value <= hi
    ensures r.Some? ==> |s| > 0
  {
    if |s| == 0 then None
    else
      var negative := s[0] == '-';
      var digits := if negative then s[1..] else s;
      if |digits| == 0 || !AllDigits(digits) then None
      else
        var v: int := if negative then -(DigitsValue(digits) as int) else DigitsValue(digits);
        if lo <= v <= hi then Some(v) else None
  }

  /** Integer.valueOf(String): null and malformed text both throw NumberFormatException. */
  function ParseInt(s: Option<string>): (r: Option<int>)
    ensures r.Some? ==> s.Some? && INT_MIN <= r.value <= INT_MAX
  {
    if s.None? then None else ParseDecimal(s.value, INT_MIN, INT_MAX)
  }

  /** Long.valueOf(String): null and malformed text both throw NumberFormatException. */
  function ParseLong(s: Option<string>): (r: Option<int>)
    ensures r.Some? ==> s.Some? && LONG_MIN <= r.value <= LONG_MAX
  {
    if s.None? then None else ParseDecimal(s.value, LONG_MIN, LONG_MAX)
  }

  /**
   * Which texts the decimal parser accepts: exactly an optional '-' and one
   * or more ASCII digits denoting a value inside [lo, hi], parsed to that
   * value. A '+' sign, "" and any other character are rejected.
   */
  lemma ParseDecimalSpec(s: string, lo: int, hi: int)
    ensures var r := ParseDecimal(s, lo, hi);
      && (r.Some? <==> (IsUnsignedText(s) || IsNegativeText(s)) && lo <= TextValue(s) <= hi)
      && (r.Some? ==> r.value == TextValue(s))
  {
  }

  /**
   * Integer.valueOf(String): an optional '-' and one or more digits whose
   * value fits in 32 bits parse to that value; null, "", a '+' sign, any
   * other character and an out-of-range value throw NumberFormatException.
   */
  lemma ParseIntSpec(s: Option<string>)
    ensures s.None? ==> ParseInt(s).None?
    ensures s.Some? ==> var t := s.value;
      (ParseInt(s).Some? <==> (IsUnsignedText(t) || IsNegativeText(t)) && INT_MIN <= TextValue(t) <= INT_MAX)
    ensures ParseInt(s).Some? ==> ParseInt(s).value == TextValue(s.value)
  {
    if s.Some? {
      ParseDecimalSpec(s.value, INT_MIN, INT_MAX);
    }
  }

  /** Long.valueOf(String): as Integer.valueOf, over the 64-bit range. */
  lemma ParseLongSpec(s: Option<string>)
    ensures s.None? ==> ParseLong(s).None?
    ensures s.Some? ==> var t := s.value;
      (ParseLong(s).Some? <==> (IsUnsignedText(t) || IsNegativeText(t)) && LONG_MIN <= TextValue(t) <= LONG_MAX)
    ensures ParseLong(s).Some? ==> ParseLong(s).value == TextValue(s.value)
  {
    if s.Some? {
      ParseDecimalSpec(s.value, LONG_MIN, LONG_MAX);
    }
  }

  /** The printed extremes of the 32-bit range parse; one step beyond them does not. */
  lemma ParseIntRange()
    ensures ParseInt(Some(IntToDecimal(INT_MIN))) == Some(INT_MIN)
    ensures ParseInt(Some(IntToDecimal(INT_MAX))) == Some(INT_MAX)
    ensures ParseInt(Some(IntToDecimal(INT_MAX + 1))).None?
    ensures ParseInt(Some(IntToDecimal(INT_MIN - 1))).None?
  {
    IntToDecimalSpec(INT_MIN);
    IntToDecimalSpec(INT_MAX);
    IntToDecimalSpec(INT_MAX + 1);
    IntToDecimalSpec(INT_MIN - 1);
    ParseIntSpec(Some(IntToDecimal(INT_MIN)));
    ParseIntSpec(Some(IntToDecimal(INT_MAX)));
    ParseIntSpec(Some(IntToDecimal(INT_MAX + 1)));
    ParseIntSpec(Some(IntToDecimal(INT_MIN - 1)));
  }

  /** Leading zeros are accepted; a '+' sign, a lone '-', "" and a blank are not. */
  lemma ParseIntTexts()
    ensures ParseInt(Some("007")) == Some(7)
    ensures ParseInt(Some("+1")).None?
    ensures ParseInt(Some("-")).None?
    ensures ParseInt(Some("")).None?
    ensures ParseInt(Some(" 1")).None?
  {
    ParseIntSpec(Some("007"));
    assert "00"[..1] == "0" && "007"[..2] == "00";
    assert DigitsValue("0") == 0;
    assert DigitsValue("00") == 0;
    assert DigitsValue("007") == 7;
    assert !IsDigit('+') && !IsDigit(' ');
  }

  lemma {:induction false} DigitsValueOfDecimal(n: nat)
    ensures DigitsValue(NatToDecimal(n)) == n
    decreases n
  {
    if n >= 10 {
      var s := NatToDecimal(n);
      assert s[..|s| - 1] == NatToDecimal(n / 10);
      DigitsValueOfDecimal(n / 10);
    }
  }

  /**
   * What Long.toString prints: the digits of n without a leading zero
   * (other than "0" itself), preceded by '-' when n is negative.
   */
  lemma IntToDecimalSpec(n: int)
    ensures var r := IntToDecimal(n);
      && (n >= 0 ==> IsUnsignedText(r) && DigitsValue(r) == n)
      && (n < 0 ==> IsNegativeText(r) && DigitsValue(r[1..]) == -n)
      && (IsUnsignedText(r) || IsNegativeText(r)) && TextValue(r) == n
      && (r[0] == '0' ==> n == 0 && r == "0")
      && (n < 0 ==> r[1] != '0')
  {
    var r := IntToDecimal(n);
    if n < 0 {
      DigitsValueOfDecimal(-n);
      assert r[1..] == NatToDecimal(-n);
    } else {
      DigitsValueOfDecimal(n);
    }
  }

  /** Printing a number in decimal and parsing it back gives the number again. */
  lemma DecimalRoundTrip(n: int, lo: int, hi: int)
    requires lo <= n <= hi
    ensures ParseDecimal(IntToDecimal(n), lo, hi) == Some(n)
  {
    IntToDecimalSpec(n);
    ParseDecimalSpec(IntToDecimal(n), lo, hi);
  }

  // ---------------------------------------------------------- UTF-8

  /** The UTF-8 encoding of one Unicode scalar value (RFC 3629, section 3). */
  function Utf8Char(c: char): (r: seq<byte>)
    ensures 1 <= |r| <= 4
    ensures (c as int < 0x80) <==> |r| == 1
    ensures |r| == 1 ==> r[0] as int == c as int
    ensures |r| == 2 <==> 0x80 <= c as int < 0x800
    ensures |r| == 3 <==> 0x800 <= c as int < 0x1_0000
  {
    var n := c as int;
    var x := n / 0x40;
    var y := x / 0x40;
    if n < 0x80 then [n as byte]
    else if n < 0x800 then [(0xC0 + x) as byte, (0x80 + n % 0x40) as byte]
    else if n < 0x1_0000 then
      [(0xE0 + y) as byte, (0x80 + x % 0x40) as byte, (0x80 + n % 0x40) as byte]
    else
      [(0xF0 + y / 0x40) as byte, (0x80 + y % 0x40) as byte,
       (0x80 + x % 0x40) as byte, (0x80 + n % 0x40) as byte]
  }

  /** The code point a well-formed one-character UTF-8 sequence carries. */
  function Utf8Value(r: seq<byte>): int
    requires 1 <= |r| <= 4
  {
    if |r| == 1 then r[0] as int
    else if |r| == 2 then (r[0] as int - 0xC0) * 0x40 + (r[1] as int - 0x80)
    else if |r| == 3 then (r[0] as int - 0xE0) * 0x1000 + (r[1] as int - 0x80) * 0x40 + (r[2] as int - 0x80)
    else (r[0] as int - 0xF0) * 0x4_0000 + (r[1] as int - 0x80) * 0x1000
         + (r[2] as int - 0x80) * 0x40 + (r[3] as int - 0x80)
  }

  /**
   * The layout of RFC 3629: a lead byte marking the length, continuation
   * bytes 10xxxxxx, and the bits of the code point spread over them.
   */
  lemma Utf8CharLayout(c: char)
    ensures var r := Utf8Char(c);
      && (|r| == 2 ==> 0xC0 <= r[0] as int < 0xE0)
      && (|r| == 3 ==> 0xE0 <= r[0] as int < 0xF0)
      && (|r| == 4 ==> 0xF0 <= r[0] as int < 0xF8)
      && (forall i :: 1 <= i < |r| ==> 0x80 <= r[i] as int < 0xC0)
      && Utf8Value(r) == c as int
  {
    var n := c as int;
    var x := n / 0x40;
    var y := x / 0x40;
    assert n == x * 0x40 + n % 0x40;
    assert x == y * 0x40 + x % 0x40;
    assert y == (y / 0x40) * 0x40 + y % 0x40;
  }

  /** Distinct characters have distinct encodings. */
  lemma Utf8CharInjective(a: char, b: char)
    ensures Utf8Char(a) == Utf8Char(b) ==> a == b
  {
    Utf8CharLayout(a);
    Utf8CharLayout(b);
  }

  /** String.getBytes("UTF-8"). */
  function Utf8(s: string): (r: seq<byte>)
    ensures |s| <= |r| <= 4 * |s|
    ensures r == [] <==> s == []
  {
    if s == [] then [] else Utf8Char(s[0]) + Utf8(s[1..])
  }

  /** A one-character string encodes as that character's own UTF-8 sequence. */
  lemma Utf8Single(c: char)
    ensures Utf8([c]) == Utf8Char(c)
  {
    assert [c][1..] == [];
  }

  /** On ASCII text the UTF-8 bytes are the characters themselves. */
  lemma {:induction false} Utf8Ascii(s: string)
    requires forall i :: 0 <= i < |s| ==> s[i] as int < 0x80
    ensures |Utf8(s)| == |s|
    ensures forall i :: 0 <= i < |s| ==> Utf8(s)[i] as int == s[i] as int
    decreases |s|
  {
    if s != [] {
      Utf8Ascii(s[1..]);
      assert forall i :: 1 <= i < |s| ==> Utf8(s)[i] == Utf8(s[1..])[i - 1];
    }
  }

  /** Encoding a concatenation is concatenating the encodings. */
  lemma {:induction false} Utf8Append(a: string, b: string)
    ensures Utf8(a + b) == Utf8(a) + Utf8(b)
  {
    if a == [] {
      assert a + b == b;
    } else {
      assert (a + b)[0] == a[0];
      assert (a + b)[1..] == a[1..] + b;
      Utf8Append(a[1..], b);
    }
  }
}
