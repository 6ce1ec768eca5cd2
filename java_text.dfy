/** The parts of java.lang.String, java.lang.Integer and commons-lang StringUtils that the
    connectors rely on, written out so that their edge cases are explicit. */
module JavaText {
  import opened Wrappers

  const IntMin: int := -0x8000_0000
  const IntMax: int := 0x7FFF_FFFF
  const LongMin: int := -0x8000_0000_0000_0000
  const LongMax: int := 0x7FFF_FFFF_FFFF_FFFF

  /** `\d` of java.util.regex without UNICODE_CHARACTER_CLASS: ASCII digits only. */
  predicate IsAsciiDigit(c: char) { '0' <= c <= '9' }

  /** `\s` of java.util.regex: [ \t\n\x0B\f\r]. */
  predicate IsRegexSpace(c: char) {
    c == ' ' || c == '\t' || c == '\n' || c == '\U{B}' || c == '\U{C}' || c == '\r'
  }

  /** The characters that `.` of java.util.regex does not match (UNIX_LINES off). */
  predicate IsLineTerminator(c: char) {
    c == '\n' || c == '\r' || c == '\U{85}' || c == '\U{2028}' || c == '\U{2029}'
  }

  /** Character.isWhitespace: the Unicode space, line and paragraph separators other than the
      non-breaking ones, and the ASCII controls \t \n \x0B \f \r \x1C-\x1F. */
  predicate IsJavaWhitespace(c: char) {
    || c == ' ' || c == '\t' || c == '\n' || c == '\U{B}' || c == '\U{C}' || c == '\r'
    || ('\U{1C}' <= c <= '\U{1F}')
    || c == '\U{1680}'
    || ('\U{2000}' <= c <= '\U{2006}') || ('\U{2008}' <= c <= '\U{200A}')
    || c == '\U{2028}' || c == '\U{2029}' || c == '\U{205F}' || c == '\U{3000}'
  }

  /** StringUtils.isBlank on a non-null string. */
  predicate IsBlank(s: string) {
    forall i | 0 <= i < |s| :: IsJavaWhitespace(s[i])
  }

  /** How many characters at or below ' ' open `s`. */
  function LeadingControls(s: string): (n: nat)
    ensures n <= |s| && (forall i | 0 <= i < n :: s[i] <= ' ') && (n < |s| ==> s[n] > ' ')
  {
    if s != [] && s[0] <= ' ' then 1 + LeadingControls(s[1..]) else 0
  }

  /** How many characters at or below ' ' close `s`. */
  function TrailingControls(s: string): (n: nat)
    ensures n <= |s| && (forall i | |s| - n <= i < |s| :: s[i] <= ' ') && (n < |s| ==> s[|s| - n - 1] > ' ')
  {
    if s != [] && s[|s| - 1] <= ' ' then 1 + TrailingControls(s[..|s| - 1]) else 0
  }

  /** String.trim: the characters at or below ' ' are removed from both ends. */
  function Trim(s: string): (t: string)
    ensures t == [] || (t[0] > ' ' && t[|t| - 1] > ' ')
  {
    var rest := s[LeadingControls(s)..];
    rest[..|rest| - TrailingControls(rest)]
  }

  /** Trimming removes exactly the padding around a text that starts and ends with a
      character above ' '. */
  lemma TrimPadded(pre: string, text: string, post: string)
    requires forall i | 0 <= i < |pre| :: pre[i] <= ' '
    requires forall i | 0 <= i < |post| :: post[i] <= ' '
    requires text != [] && text[0] > ' ' && text[|text| - 1] > ' '
    ensures Trim(pre + text + post) == text
  {
    var s := pre + text + post;
    var a := LeadingControls(s);
    assert s[|pre|] == text[0];
    assert a == |pre|;
    var rest := s[a..];
    assert rest == text + post;
    var b := TrailingControls(rest);
    assert rest[|text| - 1] == text[|text| - 1];
    assert b == |post|;
    assert rest[..|rest| - b] == text;
  }

  predicate StartsWith(s: string, prefix: string) {
    |prefix| <= |s| && s[..|prefix|] == prefix
  }

  /** String.toUpperCase restricted to the ASCII letters. */
  function UpperChar(c: char): (u: char)
    ensures 'a' <= c <= 'z' ==> 'A' <= u <= 'Z'
    ensures !('a' <= c <= 'z') ==> u == c
  {
    if 'a' <= c <= 'z' then (c as int - 32) as char else c
  }

  function ToUpper(s: string): (r: string)
    ensures |r| == |s|
    ensures forall i | 0 <= i < |s| :: r[i] == UpperChar(s[i])
  {
    if s == [] then [] else [UpperChar(s[0])] + ToUpper(s[1..])
  }

  /** Every piece of `s` between occurrences of `c`, including empty ones. */
  function SplitAll(s: string, c: char): (r: seq<string>)
    ensures |r| >= 1
    ensures forall i | 0 <= i < |r| :: c !in r[i]
  {
    if s == [] then [""]
    else if s[0] == c then [""] + SplitAll(s[1..], c)
    else
      var rest := SplitAll(s[1..], c);
      [[s[0]] + rest[0]] + rest[1..]
  }

  function DropTrailingEmpty(parts: seq<string>): (r: seq<string>)
    ensures |r| <= |parts| && r == parts[..|r|]
    ensures |r| > 0 ==> r[|r| - 1] != ""
    ensures forall i | |r| <= i < |parts| :: parts[i] == ""
  {
    if parts == [] then []
    else if parts[|parts| - 1] == "" then DropTrailingEmpty(parts[..|parts| - 1])
    else parts
  }

  /** String.split(regex) with a regex that matches exactly the character `c` and limit 0:
      without a match the whole string is the only piece; otherwise trailing empty pieces
      are removed. */
  function Split(s: string, c: char): (r: seq<string>)
    ensures forall i | 0 <= i < |r| :: c !in r[i]
  {
    if c in s then DropTrailingEmpty(SplitAll(s, c)) else [s]
  }

  /** String.join(sep, parts). */
  function Join(parts: seq<string>, sep: string): (r: string)
  {
    if parts == [] then ""
    else if |parts| == 1 then parts[0]
    else parts[0] + sep + Join(parts[1..], sep)
  }

  lemma {:induction false} JoinSnoc(parts: seq<string>, last: string, sep: string)
    requires parts != []
    ensures Join(parts + [last], sep) == Join(parts, sep) + sep + last
  {
    if |parts| > 1 {
      JoinSnoc(parts[1..], last, sep);
      assert (parts + [last])[1..] == parts[1..] + [last];
    }
  }

  lemma {:induction false} SplitAllOfJoin(parts: seq<string>, c: char)
    requires |parts| >= 1
    requires forall i | 0 <= i < |parts| :: c !in parts[i]
    ensures SplitAll(Join(parts, [c]), c) == parts
  {
    if |parts| == 1 {
      SplitAllNoSeparator(parts[0], c);
    } else {
      SplitAllOfJoin(parts[1..], c);
      SplitAllConcat(parts[0], Join(parts[1..], [c]), c);
    }
  }

  lemma {:induction false} SplitAllNoSeparator(s: string, c: char)
    requires c !in s
    ensures SplitAll(s, c) == [s]
  {
    if s != [] {
      assert s[0] != c;
      SplitAllNoSeparator(s[1..], c);
      assert [s[0]] + s[1..] == s;
    }
  }

  /** Splitting `a + [c] + b` where `a` has no separator puts `a` first. */
  lemma {:induction false} SplitAllConcat(a: string, b: string, c: char)
    requires c !in a
    ensures SplitAll(a + [c] + b, c) == [a] + SplitAll(b, c)
  {
    if a == [] {
      assert a + [c] + b == [c] + b;
      assert ([c] + b)[1..] == b;
    } else {
      SplitAllConcat(a[1..], b, c);
      assert (a + [c] + b)[1..] == a[1..] + [c] + b;
      assert [a[0]] + a[1..] == a;
    }
  }

  /** Joining pieces that hold no separator and splitting again gives the pieces back, as
      long as the last piece is not empty (Java drops trailing empty pieces). */
  lemma SplitOfJoin(parts: seq<string>, c: char)
    requires |parts| >= 1 && parts[|parts| - 1] != ""
    requires forall i | 0 <= i < |parts| :: c !in parts[i]
    ensures Split(Join(parts, [c]), c) == parts
  {
    SplitAllOfJoin(parts, c);
    if c !in Join(parts, [c]) {
      SplitAllNoSeparator(Join(parts, [c]), c);
    }
  }

  function DigitChar(d: nat): (c: char)
    requires d < 10
    ensures IsAsciiDigit(c)
  {
    ('0' as int + d) as char
  }

  function DigitOf(c: char): (d: nat)
    requires IsAsciiDigit(c)
    ensures d < 10 && DigitChar(d) == c
  {
    c as int - '0' as int
  }

  /** Decimal rendering of a natural number, without leading zeros. */
  function NatToString(n: nat): (s: string)
    ensures |s| >= 1
    ensures forall i | 0 <= i < |s| :: IsAsciiDigit(s[i])
  {
    if n < 10 then [DigitChar(n)] else NatToString(n / 10) + [DigitChar(n % 10)]
  }

  /** The value of a string of ASCII digits, read left to right. */
  function DigitsValue(s: string): nat
    requires forall i | 0 <= i < |s| :: IsAsciiDigit(s[i])
  {
    if s == [] then 0 else DigitsValue(s[..|s| - 1]) * 10 + DigitOf(s[|s| - 1])
  }

  lemma {:induction false} DigitsValueOfNatToString(n: nat)
    ensures DigitsValue(NatToString(n)) == n
  {
    var s := NatToString(n);
    if n >= 10 {
      DigitsValueOfNatToString(n / 10);
      assert s[..|s| - 1] == NatToString(n / 10);
    }
  }

  lemma NatToStringInjective(m: nat, n: nat)
    requires NatToString(m) == NatToString(n)
    ensures m == n
  {
    DigitsValueOfNatToString(m);
    DigitsValueOfNatToString(n);
  }

  /** Long.toString / string concatenation of a long. */
  function IntToString(n: int): string
  {
    if n < 0 then "-" + NatToString(-n) else NatToString(n)
  }

  lemma IntToStringSign(n: int)
    ensures |IntToString(n)| >= 1
    ensures (IntToString(n)[0] == '-') <==> n < 0
  {
    if n >= 0 {
      assert IsAsciiDigit(NatToString(n)[0]);
    }
  }

  lemma IntToStringInjective(m: int, n: int)
    requires IntToString(m) == IntToString(n)
    ensures m == n
  {
    IntToStringSign(m);
    IntToStringSign(n);
    if m < 0 && n < 0 {
      assert NatToString(-m) == IntToString(m)[1..];
      assert NatToString(-n) == IntToString(n)[1..];
      NatToStringInjective(-m, -n);
    } else if m >= 0 && n >= 0 {
      NatToStringInjective(m, n);
    }
  }

  predicate AllDigits(s: string) {
    forall i | 0 <= i < |s| :: IsAsciiDigit(s[i])
  }

  /** Integer.parseInt / Long.parseLong over ASCII digits: an optional sign, at least one
      digit, and a value inside [lo, hi]; anything else is a NumberFormatException (None). */
  function ParseIntegral(s: string, lo: int, hi: int): (r: Option<int>)
    ensures r.Some? ==> lo <= r.value <= hi
  {
    if s == [] then None
    else
      var negative := s[0] == '-';
      var digits := if s[0] == '-' || s[0] == '+' then s[1..] else s;
      if digits == [] || !AllDigits(digits) then None
      else
        var v: int := if negative then -(DigitsValue(digits) as int) else DigitsValue(digits);
        if lo <= v <= hi then Some(v) else None
  }

  function ParseInt(s: string): Option<int> { ParseIntegral(s, IntMin, IntMax) }

  function ParseLong(s: string): Option<int> { ParseIntegral(s, LongMin, LongMax) }

  lemma ParseIntOfNatToString(n: nat)
    requires n <= IntMax
    ensures ParseInt(NatToString(n)) == Some(n)
  {
    DigitsValueOfNatToString(n);
    assert IsAsciiDigit(NatToString(n)[0]);
  }

  /** String.format("%04d", n) for 0 <= n < 10000. */
  function Pad4(n: nat): (s: string)
    requires n < 10000
    ensures |s| == 4 && AllDigits(s)
  {
    var d := NatToString(n);
    assert |d| <= 4 by { NatToStringLength(n, 10000, 4); }
    seq(4 - |d|, _ => '0') + d
  }

  lemma {:induction false} NatToStringLength(n: nat, bound: nat, k: nat)
    requires bound == Pow10(k) && n < bound
    ensures |NatToString(n)| <= if k == 0 then 1 else k
  {
    if n >= 10 {
      NatToStringLength(n / 10, Pow10(k - 1), k - 1);
    }
  }

  function Pow10(k: nat): nat { if k == 0 then 1 else 10 * Pow10(k - 1) }

  /** getBytes(StandardCharsets.UTF_8) for one Unicode scalar value. */
  function Utf8Char(c: char): (b: seq<bv8>)
    ensures 1 <= |b| <= 4
    ensures (c as int < 0x80) <==> |b| == 1
  {
    var v := c as int;
    if v < 0x80 then [v as bv8]
    else if v < 0x800 then [(0xC0 + v / 0x40) as bv8, (0x80 + v % 0x40) as bv8]
    else if v < 0x10000 then
      [(0xE0 + v / 0x1000) as bv8, (0x80 + (v / 0x40) % 0x40) as bv8, (0x80 + v % 0x40) as bv8]
    else
      [(0xF0 + v / 0x40000) as bv8, (0x80 + (v / 0x1000) % 0x40) as bv8,
       (0x80 + (v / 0x40) % 0x40) as bv8, (0x80 + v % 0x40) as bv8]
  }

  function Utf8(s: string): (b: seq<bv8>)
    ensures |s| <= |b| <= 4 * |s|
  {
    if s == [] then [] else Utf8Char(s[0]) + Utf8(s[1..])
  }

  lemma {:induction false} Utf8Concat(s: string, t: string)
    ensures Utf8(s + t) == Utf8(s) + Utf8(t)
  {
    if s != [] {
      var head := Utf8Char(s[0]);
      assert (s + t)[0] == s[0] && (s + t)[1..] == s[1..] + t;
      assert Utf8(s + t) == head + Utf8(s[1..] + t);
      assert Utf8(s) == head + Utf8(s[1..]);
      Utf8Concat(s[1..], t);
      assert head + (Utf8(s[1..]) + Utf8(t)) == (head + Utf8(s[1..])) + Utf8(t);
    } else {
      assert s + t == t;
    }
  }

  /** The UTF-16 code units that Java stores for one Unicode scalar value. */
  function Utf16Units(c: char): (u: seq<bv32>)
    ensures 1 <= |u| <= 2
  {
    var v := c as int;
    if v < 0x10000 then [v as bv32]
    else [(0xD800 + (v - 0x10000) / 0x400) as bv32, (0xDC00 + (v - 0x10000) % 0x400) as bv32]
  }

  function HashUnits(h: bv32, units: seq<bv32>): bv32
    decreases |units|
  {
    if units == [] then h else HashUnits(31 * h + units[0], units[1..])
  }

  function HashFrom(h: bv32, s: string): bv32
    decreases |s|
  {
    if s == [] then h else HashFrom(HashUnits(h, Utf16Units(s[0])), s[1..])
  }

  /** String.hashCode: s[0]*31^(n-1) + ... + s[n-1] over the UTF-16 code units, wrapping at
      32 bits. */
  function StringHash(s: string): bv32 { HashFrom(0, s) }

  /** String.replace(target, "") : every non-overlapping occurrence of `target`, found left to
      right, is removed; an empty target leaves the string as it is. */
  function RemoveAll(s: string, target: string): (r: string)
    ensures |r| <= |s|
    decreases |s|
  {
    if target == [] || |s| < |target| then s
    else if s[..|target|] == target then RemoveAll(s[|target|..], target)
    else [s[0]] + RemoveAll(s[1..], target)
  }

  predicate OccursAt(s: string, t: string, i: nat) {
    i + |t| <= |s| && s[i..i + |t|] == t
  }

  /** Removing a suffix that occurs nowhere earlier leaves exactly the rest. */
  lemma {:induction false} RemoveAllSuffix(a: string, t: string)
    requires t != []
    requires forall i: nat | i < |a| :: !OccursAt(a + t, t, i)
    ensures RemoveAll(a + t, t) == a
    decreases |a|
  {
    var s := a + t;
    if a == [] {
      assert s == t;
      assert s[|t|..] == [];
    } else {
      assert !OccursAt(s, t, 0);
      assert s[..|t|] == s[0..0 + |t|];
      assert s[1..] == a[1..] + t;
      forall i: nat | i < |a[1..]|
        ensures !OccursAt(a[1..] + t, t, i)
      {
        assert !OccursAt(s, t, i + 1);
        assert (a[1..] + t)[i..i + |t|] == s[i + 1..i + 1 + |t|];
      }
      RemoveAllSuffix(a[1..], t);
    }
  }
}
