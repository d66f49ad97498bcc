/**
 * String operations the services rely on: `Array.prototype.join` and
 * `String.prototype.split` with a one-character separator, substring
 * containment, and `parseInt` with radix 10 or none, together with the
 * decimal rendering it inverts.
 */
module Text {
  import opened Shared
  import Store

  /** `lines.join(sep)`. */
  function Join(lines: seq<string>, sep: char): string
    decreases |lines|
  {
    if |lines| == 0 then ""
    else if |lines| == 1 then lines[0]
    else lines[0] + [sep] + Join(lines[1..], sep)
  }

  /** `s.split(sep)`: the pieces between occurrences of `sep`. */
  function Split(s: string, sep: char): (r: seq<string>)
    ensures |r| >= 1
    decreases |s|
  {
    match Store.FirstIndex(s, (c: char) => c == sep)
    case None => [s]
    case Some(i) => [s[..i]] + Split(s[i + 1..], sep)
  }

  /** The first separator ends the first piece. */
  lemma SplitAtFirst(head: string, sep: char, rest: string)
    requires sep !in head
    ensures Split(head + [sep] + rest, sep) == [head] + Split(rest, sep)
  {
    var s := head + [sep] + rest;
    assert forall j :: 0 <= j < |head| ==> s[j] == head[j];
    assert s[|head|] == sep;
    assert Store.FirstIndex(s, (c: char) => c == sep) == Some(|head|);
    assert s[..|head|] == head;
    assert s[|head| + 1..] == rest;
  }

  /** Splitting a joined list of separator-free lines gives the lines back. */
  lemma {:induction false} SplitJoin(lines: seq<string>, sep: char)
    requires |lines| >= 1
    requires forall i :: 0 <= i < |lines| ==> sep !in lines[i]
    ensures Split(Join(lines, sep), sep) == lines
    decreases |lines|
  {
    if |lines| == 1 {
      assert Store.FirstIndex(lines[0], (c: char) => c == sep).None?;
    } else {
      SplitJoin(lines[1..], sep);
      SplitAtFirst(lines[0], sep, Join(lines[1..], sep));
      assert lines == [lines[0]] + lines[1..];
    }
  }

  /**
   * `s.length` in JavaScript: the number of UTF-16 code units, so a character
   * beyond U+FFFF (a surrogate pair) counts twice.
   */
  function Utf16Length(s: string): (n: nat)
    ensures |s| <= n <= 2 * |s|
    decreases |s|
  {
    if |s| == 0 then 0 else (if s[0] as int >= 0x10000 then 2 else 1) + Utf16Length(s[1..])
  }

  /** On text within the Basic Multilingual Plane, the JavaScript length is the character count. */
  lemma {:induction false} Utf16LengthOfBmp(s: string)
    requires forall i :: 0 <= i < |s| ==> s[i] as int < 0x10000
    ensures Utf16Length(s) == |s|
    decreases |s|
  {
    if |s| > 0 {
      Utf16LengthOfBmp(s[1..]);
    }
  }

  /** Each character beyond U+FFFF counts twice: three musical notes make a length of six. */
  lemma Utf16LengthOfAstral()
    ensures Utf16Length("\U{1F3B5}\U{1F3B5}\U{1F3B5}") == 6
  {
    var s := "\U{1F3B5}\U{1F3B5}\U{1F3B5}";
    assert s[1..][1..][1..] == "";
  }

  /** `t` occurs in `s` as a contiguous substring. */
  predicate Contains(s: string, t: string) {
    exists i :: 0 <= i && i + |t| <= |s| && OccursAt(s, t, i)
  }

  predicate OccursAt(s: string, t: string, i: nat)
    requires i + |t| <= |s|
  {
    s[i..i + |t|] == t
  }

  lemma ContainsMiddle(a: string, t: string, b: string)
    ensures Contains(a + t + b, t)
  {
    var s := a + t + b;
    assert OccursAt(s, t, |a|);
  }

  predicate IsDigit(c: char) {
    '0' <= c <= '9'
  }

  function DigitValue(c: char): nat
    requires IsDigit(c)
  {
    (c as int - '0' as int) as nat
  }

  function DigitChar(d: nat): (c: char)
    requires d < 10
    ensures IsDigit(c) && DigitValue(c) == d
  {
    ('0' as int + d) as char
  }

  /** The white space `parseInt` skips before the number. */
  predicate IsSpace(c: char) {
    c == ' ' || c == '\t' || c == '\n' || c == '\r' || c == '\U{0B}' || c == '\U{0C}'
  }

  function TrimStart(s: string): (r: string)
    ensures |r| <= |s| && r == s[|s| - |r|..]
    ensures |r| > 0 ==> !IsSpace(r[0])
    decreases |s|
  {
    if |s| > 0 && IsSpace(s[0]) then TrimStart(s[1..]) else s
  }

  /** The longest prefix of `s` made of decimal digits. */
  function LeadingDigits(s: string): (r: string)
    ensures |r| <= |s| && r == s[..|r|]
    ensures forall i :: 0 <= i < |r| ==> IsDigit(r[i])
    ensures |r| < |s| ==> !IsDigit(s[|r|])
    decreases |s|
  {
    if |s| > 0 && IsDigit(s[0]) then [s[0]] + LeadingDigits(s[1..]) else ""
  }

  /** The number a run of decimal digits denotes. */
  function DigitsValue(s: string): nat
    requires forall i :: 0 <= i < |s| ==> IsDigit(s[i])
    decreases |s|
  {
    if |s| == 0 then 0 else DigitsValue(s[..|s| - 1]) * 10 + DigitValue(s[|s| - 1])
  }

  /** Whether the number text, after leading white space, opens with a minus sign. */
  predicate IsNegative(s: string) {
    var t := TrimStart(s);
    |t| > 0 && t[0] == '-'
  }

  /** The text after leading white space and an optional sign. */
  function Unsigned(s: string): (r: string)
    ensures |r| <= |s| && r == s[|s| - |r|..]
  {
    var t := TrimStart(s);
    if |t| > 0 && (t[0] == '-' || t[0] == '+') then t[1..] else t
  }

  /**
   * `parseInt(s, 10)`: skip leading white space, read an optional sign and the
   * longest run of digits after it; `None` stands for `NaN` (no digits).
   */
  function ParseInt(s: string): (r: Option<int>)
    ensures r.Some? ==> exists k :: 0 <= k < |s| && IsDigit(s[k])
  {
    var body := Unsigned(s);
    var digits := LeadingDigits(body);
    if |digits| == 0 then None
    else
      assert body[0] == digits[0] && s[|s| - |body|] == body[0];
      Some(if IsNegative(s) then -(DigitsValue(digits) as int) else DigitsValue(digits))
  }

  /** Whether `s` opens with the hexadecimal prefix "0x" or "0X". */
  predicate HasHexPrefix(s: string) {
    |s| >= 2 && s[0] == '0' && (s[1] == 'x' || s[1] == 'X')
  }

  /** The value of a hexadecimal digit of either case. */
  function HexDigitValue(c: char): (r: nat)
    requires IsHexDigit(c)
    ensures r < 16
    ensures IsDigit(c) ==> r == DigitValue(c)
  {
    if '0' <= c <= '9' then c as int - '0' as int
    else if 'a' <= c <= 'f' then c as int - 'a' as int + 10
    else c as int - 'A' as int + 10
  }

  /** The longest prefix of `s` made of hexadecimal digits. */
  function LeadingHexDigits(s: string): (r: string)
    ensures |r| <= |s| && r == s[..|r|]
    ensures forall i :: 0 <= i < |r| ==> IsHexDigit(r[i])
    ensures |r| < |s| ==> !IsHexDigit(s[|r|])
    decreases |s|
  {
    if |s| > 0 && IsHexDigit(s[0]) then [s[0]] + LeadingHexDigits(s[1..]) else ""
  }

  /** The number a run of hexadecimal digits denotes. */
  function HexDigitsValue(s: string): nat
    requires forall i :: 0 <= i < |s| ==> IsHexDigit(s[i])
    decreases |s|
  {
    if |s| == 0 then 0 else HexDigitsValue(s[..|s| - 1]) * 16 + HexDigitValue(s[|s| - 1])
  }

  /**
   * `parseInt(s)` with no radix: as `parseInt(s, 10)`, except that a "0x" or
   * "0X" right after the sign selects base 16 and is skipped; `None` stands
   * for `NaN` (no digits after the prefix).
   */
  function ParseIntAnyRadix(s: string): (r: Option<int>)
    ensures !HasHexPrefix(Unsigned(s)) ==> r == ParseInt(s)
    ensures HasHexPrefix(Unsigned(s)) ==> (r.Some? <==> |Unsigned(s)| > 2 && IsHexDigit(Unsigned(s)[2]))
    ensures r.Some? && !IsNegative(s) ==> r.value >= 0
  {
    var body := Unsigned(s);
    if HasHexPrefix(body) then
      var digits := LeadingHexDigits(body[2..]);
      if |digits| == 0 then None
      else Some(if IsNegative(s) then -(HexDigitsValue(digits) as int) else HexDigitsValue(digits))
    else ParseInt(s)
  }

  /** The decimal rendering of a natural number, without sign or leading zeros. */
  function NatToString(n: nat): (r: string)
    ensures |r| >= 1
    ensures forall i :: 0 <= i < |r| ==> IsDigit(r[i])
    decreases n
  {
    if n < 10 then [DigitChar(n)] else NatToString(n / 10) + [DigitChar(n % 10)]
  }

  lemma {:induction false} DigitsValueOfNatToString(n: nat)
    ensures DigitsValue(NatToString(n)) == n
    decreases n
  {
    var r := NatToString(n);
    if n < 10 {
      assert r[..|r| - 1] == [];
    } else {
      assert r[..|r| - 1] == NatToString(n / 10);
      DigitsValueOfNatToString(n / 10);
    }
  }

  lemma {:induction false} LeadingDigitsOfDigits(s: string)
    requires forall i :: 0 <= i < |s| ==> IsDigit(s[i])
    ensures LeadingDigits(s) == s
    decreases |s|
  {
    if |s| > 0 {
      LeadingDigitsOfDigits(s[1..]);
      assert s == [s[0]] + s[1..];
    }
  }

  /** On a non-empty run of digits, `parseInt` is the value the digits denote. */
  lemma ParseIntOfDigits(s: string)
    requires |s| >= 1
    requires forall i :: 0 <= i < |s| ==> IsDigit(s[i])
    ensures ParseInt(s) == Some(DigitsValue(s) as int)
  {
    assert IsDigit(s[0]);
    UnsignedOfPlain(s);
    LeadingDigitsOfDigits(s);
    assert LeadingDigits(s) == s;
  }

  /** `parseInt` reads back the decimal rendering of every natural number. */
  lemma ParseIntNatToString(n: nat)
    ensures ParseInt(NatToString(n)) == Some(n)
  {
    ParseIntOfDigits(NatToString(n));
    DigitsValueOfNatToString(n);
  }

  /** Text that opens with neither white space nor a sign is its own unsigned part. */
  lemma UnsignedOfPlain(s: string)
    requires |s| > 0 && !IsSpace(s[0]) && s[0] != '-' && s[0] != '+'
    ensures Unsigned(s) == s && !IsNegative(s)
  {
    assert TrimStart(s) == s;
  }

  lemma {:induction false} LeadingHexDigitsOfHexDigits(s: string)
    requires forall i :: 0 <= i < |s| ==> IsHexDigit(s[i])
    ensures LeadingHexDigits(s) == s
    decreases |s|
  {
    if |s| > 0 {
      LeadingHexDigitsOfHexDigits(s[1..]);
      assert s == [s[0]] + s[1..];
    }
  }

  /** Without a radix, "0x" followed by hexadecimal digits is read in base 16. */
  lemma ParseIntAnyRadixHex(h: string)
    requires |h| >= 1
    requires forall i :: 0 <= i < |h| ==> IsHexDigit(h[i])
    ensures ParseIntAnyRadix("0x" + h) == Some(HexDigitsValue(h) as int)
  {
    var s := "0x" + h;
    UnsignedOfPlain(s);
    assert HasHexPrefix(s) && s[2..] == h;
    LeadingHexDigitsOfHexDigits(h);
  }

  /** Without a radix, the decimal rendering of every natural number still reads back. */
  lemma ParseIntAnyRadixNatToString(n: nat)
    ensures ParseIntAnyRadix(NatToString(n)) == Some(n)
  {
    var r := NatToString(n);
    assert IsDigit(r[0]);
    UnsignedOfPlain(r);
    assert !HasHexPrefix(r) by {
      if |r| >= 2 { assert IsDigit(r[1]); }
    }
    ParseIntNatToString(n);
  }
}
