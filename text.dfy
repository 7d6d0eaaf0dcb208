/** Strings as the storefront's JavaScript sees them: character classes of its
    regular expressions, `toLowerCase`, `includes`, `padStart`, decimal and
    hexadecimal numerals. */
module Text {
  import opened Js

  /** The characters matched by the regular-expression class `\s`. */
  predicate IsWhitespace(c: char) {
    c == ' ' || c == '\t' || c == '\n' || c == '\r' || c == '\U{000B}' || c == '\U{000C}'
    || c == '\U{00A0}' || c == '\U{1680}' || ('\U{2000}' <= c <= '\U{200A}')
    || c == '\U{2028}' || c == '\U{2029}' || c == '\U{202F}' || c == '\U{205F}'
    || c == '\U{3000}' || c == '\U{FEFF}'
  }

  predicate NoWhitespace(s: string) {
    forall i :: 0 <= i < |s| ==> !IsWhitespace(s[i])
  }

  /** A concatenation has no whitespace exactly when neither part has. */
  lemma NoWhitespaceAppend(a: string, b: string)
    ensures NoWhitespace(a + b) <==> NoWhitespace(a) && NoWhitespace(b)
  {
    if NoWhitespace(a + b) {
      forall i | 0 <= i < |a| ensures !IsWhitespace(a[i]) {
        assert a[i] == (a + b)[i];
      }
      forall i | 0 <= i < |b| ensures !IsWhitespace(b[i]) {
        assert b[i] == (a + b)[|a| + i];
      }
    }
    if NoWhitespace(a) && NoWhitespace(b) {
      forall i | 0 <= i < |a + b| ensures !IsWhitespace((a + b)[i]) {
        if i < |a| {
          assert (a + b)[i] == a[i];
        } else {
          assert (a + b)[i] == b[i - |a|];
        }
      }
    }
  }

  /** Within an occurrence of `needle` at `i`, `s[lo..hi]` reads as the
      matching part of the needle. */
  lemma OccurrenceSlice(s: string, needle: string, i: nat, lo: nat, hi: nat)
    requires OccursAt(s, needle, i) && i <= lo <= hi <= i + |needle|
    ensures s[lo..hi] == needle[lo - i..hi - i]
  {
    forall j | 0 <= j < hi - lo ensures s[lo..hi][j] == needle[lo - i..hi - i][j] {
      assert s[lo + j] == s[i..i + |needle|][lo - i + j];
    }
  }

  /** A slice of a string without whitespace has none either. */
  lemma NoWhitespaceSlice(s: string, lo: nat, hi: nat)
    requires lo <= hi <= |s| && NoWhitespace(s)
    ensures NoWhitespace(s[lo..hi])
  {
    forall i | 0 <= i < hi - lo ensures !IsWhitespace(s[lo..hi][i]) {
      assert s[lo..hi][i] == s[lo + i];
    }
  }

  predicate IsDigit(c: char) {
    '0' <= c <= '9'
  }

  predicate IsDigits(s: string) {
    forall i :: 0 <= i < |s| ==> IsDigit(s[i])
  }

  /** `/^[0-9]{10}$/.test(s)`. */
  predicate IsTenDigits(s: string) {
    |s| == 10 && IsDigits(s)
  }

  /** `toLowerCase` on one character; only the ASCII letters are folded. */
  function LowerChar(c: char): char {
    if 'A' <= c <= 'Z' then (c as int + 32) as char else c
  }

  function Lower(s: string): (r: string)
    ensures |r| == |s|
    ensures forall i :: 0 <= i < |s| ==> r[i] == LowerChar(s[i])
  {
    seq(|s|, i requires 0 <= i < |s| => LowerChar(s[i]))
  }

  /** `needle` occurs in `s` starting at index `i`. */
  predicate OccursAt(s: string, needle: string, i: int) {
    0 <= i && i + |needle| <= |s| && s[i..i + |needle|] == needle
  }

  /** `s.includes(needle)`. */
  predicate Contains(s: string, needle: string)
    decreases |s|
  {
    (|needle| <= |s| && s[..|needle|] == needle) || (|s| > 0 && Contains(s[1..], needle))
  }

  /** `includes` holds exactly when the needle occurs at some index. */
  lemma {:induction false} ContainsIff(s: string, needle: string)
    ensures Contains(s, needle) <==> exists i :: OccursAt(s, needle, i)
    decreases |s|
  {
    if |needle| <= |s| && s[..|needle|] == needle {
      assert OccursAt(s, needle, 0);
    } else if |s| > 0 {
      ContainsIff(s[1..], needle);
      if Contains(s[1..], needle) {
        var i :| OccursAt(s[1..], needle, i);
        assert s[1..][i..i + |needle|] == s[i + 1..i + 1 + |needle|];
        assert OccursAt(s, needle, i + 1);
      }
      if exists i :: OccursAt(s, needle, i) {
        var i :| OccursAt(s, needle, i);
        assert i != 0;
        assert s[1..][i - 1..i - 1 + |needle|] == s[i..i + |needle|];
        assert OccursAt(s[1..], needle, i - 1);
      }
    } else {
      assert |needle| > 0 by { assert s[..0] == ""; }
    }
  }

  /** Every string includes the empty string. */
  lemma ContainsEmpty(s: string)
    ensures Contains(s, "")
  {
    assert s[..0] == "";
  }

  /** Every string includes itself. */
  lemma ContainsSelf(s: string)
    ensures Contains(s, s)
  {
    assert s[..|s|] == s;
  }

  // ---------------------------------------------------------------------------
  // Decimal numerals

  function DigitChar(d: nat): (c: char)
    requires d < 10
    ensures IsDigit(c) && c as int - '0' as int == d
  {
    ('0' as int + d) as char
  }

  /** `n.toString()` for a natural number. */
  function NatToString(n: nat): (r: string)
    ensures 1 <= |r| && IsDigits(r)
    decreases n
  {
    if n < 10 then [DigitChar(n)] else NatToString(n / 10) + [DigitChar(n % 10)]
  }

  /** `i.toString()` for an integer. */
  function IntToString(i: int): string {
    if i < 0 then "-" + NatToString(-i) else NatToString(i)
  }

  /** The value of a string of decimal digits (leading zeros allowed). */
  function DigitsValue(s: string): nat
    requires IsDigits(s)
  {
    if s == [] then 0 else DigitsValue(s[..|s| - 1]) * 10 + (s[|s| - 1] as int - '0' as int)
  }

  lemma {:induction false} NatToStringValue(n: nat)
    ensures DigitsValue(NatToString(n)) == n
    decreases n
  {
    if n >= 10 {
      NatToStringValue(n / 10);
      var s := NatToString(n);
      assert s[..|s| - 1] == NatToString(n / 10);
    }
  }

  /** The number of digits of `n`, for the ranges the order id uses. */
  lemma {:induction false} NatToStringLength(n: nat)
    ensures n < 10 ==> |NatToString(n)| == 1
    ensures 10 <= n < 100 ==> |NatToString(n)| == 2
    ensures 100 <= n < 1000 ==> |NatToString(n)| == 3
    ensures 1000 <= n < 10000 ==> |NatToString(n)| == 4
    decreases n
  {
    if n >= 10 {
      NatToStringLength(n / 10);
    }
  }

  function Repeat(c: char, k: nat): (r: string)
    ensures |r| == k && forall i :: 0 <= i < k ==> r[i] == c
  {
    if k == 0 then "" else [c] + Repeat(c, k - 1)
  }

  /** `s.padStart(width, c)`. */
  function PadStart(s: string, width: nat, c: char): (r: string)
    ensures |s| >= width ==> r == s
    ensures |s| < width ==> |r| == width && r[width - |s|..] == s
    ensures |s| < width ==> forall i :: 0 <= i < width - |s| ==> r[i] == c
  {
    if |s| >= width then s else Repeat(c, width - |s|) + s
  }

  /** Leading zeros do not change the value of a numeral. */
  lemma {:induction false} DigitsValueLeadingZero(s: string)
    requires IsDigits(s)
    ensures IsDigits("0" + s) && DigitsValue("0" + s) == DigitsValue(s)
    decreases |s|
  {
    var t := "0" + s;
    assert IsDigits(t) by {
      forall i | 0 <= i < |t| ensures IsDigit(t[i]) {
        if i > 0 { assert t[i] == s[i - 1]; }
      }
    }
    if s != [] {
      var init := s[..|s| - 1];
      DigitsValueLeadingZero(init);
      assert t[..|t| - 1] == "0" + init;
    }
  }

  lemma {:induction false} DigitsValueZeros(k: nat, s: string)
    requires IsDigits(s)
    ensures IsDigits(Repeat('0', k) + s) && DigitsValue(Repeat('0', k) + s) == DigitsValue(s)
    decreases k
  {
    if k > 0 {
      DigitsValueZeros(k - 1, s);
      var rest := Repeat('0', k - 1) + s;
      DigitsValueLeadingZero(rest);
      assert Repeat('0', k) + s == "0" + rest;
    } else {
      assert Repeat('0', 0) + s == s;
    }
  }

  /** `n.toString().padStart(width, '0')` is a numeral of exactly `width`
      digits whose value is `n`, when `n` has at most `width` digits. */
  lemma PaddedNumeral(n: nat, width: nat)
    requires |NatToString(n)| <= width
    ensures |PadStart(NatToString(n), width, '0')| == width
    ensures IsDigits(PadStart(NatToString(n), width, '0'))
    ensures DigitsValue(PadStart(NatToString(n), width, '0')) == n
  {
    var s := NatToString(n);
    NatToStringValue(n);
    if |s| < width {
      DigitsValueZeros(width - |s|, s);
    }
  }

  // ---------------------------------------------------------------------------
  // `Number(s)` on the strings a numeric input produces

  function Pow10(k: nat): (r: nat)
    ensures r >= 1
  {
    if k == 0 then 1 else 10 * Pow10(k - 1)
  }

  /** Index of the first `c` in `s`, or `|s|` when there is none. */
  function IndexOf(s: string, c: char): (k: nat)
    ensures k <= |s|
    ensures forall i :: 0 <= i < k ==> s[i] != c
    ensures k < |s| ==> s[k] == c
  {
    if s == [] then 0 else if s[0] == c then 0 else 1 + IndexOf(s[1..], c)
  }

  /** `Number(s)` for an unsigned decimal: digits with at most one `.` and at
      least one digit. Anything else is NaN. */
  function ParseUnsigned(s: string): (r: JsNumber)
    ensures r.Finite? ==> r.n >= 0.0
  {
    var k := IndexOf(s, '.');
    var whole := s[..k];
    var frac := if k < |s| then s[k + 1..] else "";
    if IsDigits(whole) && IsDigits(frac) && |whole| + |frac| >= 1 then
      Finite(DigitsValue(whole) as real + DigitsValue(frac) as real / Pow10(|frac|) as real)
    else NaN
  }

  /** `Number(s)` for a string: the empty string reads as 0, an optional sign,
      then an unsigned decimal; everything else is NaN. */
  function ParseDecimal(s: string): JsNumber {
    if s == "" then Finite(0.0)
    else if s[0] == '-' then
      (var u := ParseUnsigned(s[1..]); if u.Finite? then Finite(-u.n) else NaN)
    else if s[0] == '+' then ParseUnsigned(s[1..])
    else ParseUnsigned(s)
  }

  /** `Number(String(n))` gives back `n`. */
  lemma NumberOfNumeral(n: nat)
    ensures ParseDecimal(NatToString(n)) == Finite(n as real)
  {
    var s := NatToString(n);
    NatToStringValue(n);
    assert forall i :: 0 <= i < |s| ==> s[i] != '.' by {
      forall i | 0 <= i < |s| ensures s[i] != '.' { assert IsDigit(s[i]); }
    }
    assert IndexOf(s, '.') == |s|;
    assert s[..|s|] == s;
    assert s[0] != '-' && s[0] != '+' by { assert IsDigit(s[0]); }
  }

  // ---------------------------------------------------------------------------
  // `parseInt(s, 16)` on hexadecimal digits

  function HexDigitValue(c: char): (r: int)
    ensures -1 <= r < 16
  {
    if '0' <= c <= '9' then c as int - '0' as int
    else if 'a' <= c <= 'f' then c as int - 'a' as int + 10
    else if 'A' <= c <= 'F' then c as int - 'A' as int + 10
    else -1
  }

  predicate IsHexDigit(c: char) {
    HexDigitValue(c) >= 0
  }

  predicate IsHexDigits(s: string) {
    forall i :: 0 <= i < |s| ==> IsHexDigit(s[i])
  }

  /** Length of the longest prefix of hexadecimal digits. */
  function HexRun(s: string): (k: nat)
    ensures k <= |s| && IsHexDigits(s[..k])
    ensures k < |s| ==> !IsHexDigit(s[k])
  {
    if s == [] || !IsHexDigit(s[0]) then 0
    else
      var k := 1 + HexRun(s[1..]);
      assert forall i :: 1 <= i < k ==> s[..k][i] == s[1..][..k - 1][i - 1];
      k
  }

  function HexValue(s: string): (r: nat)
    requires IsHexDigits(s)
  {
    if s == [] then 0 else HexValue(s[..|s| - 1]) * 16 + HexDigitValue(s[|s| - 1])
  }

  /** `parseInt(s, 16)`: the value of the leading hexadecimal digits, NaN when
      there are none. */
  function ParseHex(s: string): (r: JsNumber)
    ensures r.Finite? ==> r.n >= 0.0
  {
    var k := HexRun(s);
    if k == 0 then NaN else Finite(HexValue(s[..k]) as real)
  }

  /** `parseInt` of two hexadecimal digits is the byte they spell. */
  lemma ParseHexPair(s: string)
    requires |s| == 2 && IsHexDigits(s)
    ensures ParseHex(s) == Finite((HexDigitValue(s[0]) * 16 + HexDigitValue(s[1])) as real)
  {
    assert HexRun(s[1..]) == 1 by {
      assert IsHexDigit(s[1..][0]);
      assert s[1..][1..] == [];
    }
    assert HexRun(s) == 2;
    assert s[..2] == s;
    assert s[..1] == [s[0]];
    assert [s[0]][..0] == [];
    assert HexValue([s[0]]) == HexDigitValue(s[0]);
    assert HexValue(s) == HexValue(s[..1]) * 16 + HexDigitValue(s[1]);
  }
}
