/**
 * The JavaScript string built-ins that the annotation code leans on, written
 * out: truthiness of a string, `parseInt` without a radix, `replace` with a
 * string pattern, `startsWith`, `substring` and `Number.prototype.toString(radix)`.
 * Strings are sequences of code points; UTF-16 surrogate pairs are not modelled.
 */
module JsText {
  import opened Wrappers

  /** JavaScript truthiness of a possibly missing string: `undefined`, `null` and `""` are falsy. */
  predicate Truthy(s: Option<string>) {
    s.Some? && s.value != ""
  }

  /** StrWhiteSpaceChar of ECMA-262: the WhiteSpace and LineTerminator code points. */
  predicate IsWhiteSpace(c: char) {
    c == '\t' || c == '\U{000B}' || c == '\U{000C}' || c == ' ' || c == '\U{00A0}' || c == '\U{FEFF}'
    || c == '\U{1680}' || ('\U{2000}' <= c <= '\U{200A}') || c == '\U{202F}' || c == '\U{205F}'
    || c == '\U{3000}' || c == '\n' || c == '\r' || c == '\U{2028}' || c == '\U{2029}'
  }

  predicate IsDecimalDigit(c: char) {
    '0' <= c <= '9'
  }

  /** Whether `c` is a digit of `radix`, which is 16 or 10 (letters in either case). */
  predicate IsRadixDigit(c: char, radix: nat) {
    IsDecimalDigit(c) || (radix == 16 && ('a' <= c <= 'f' || 'A' <= c <= 'F'))
  }

  function DigitValue(c: char): nat {
    if IsDecimalDigit(c) then c as int - '0' as int
    else if 'a' <= c <= 'f' then c as int - 'a' as int + 10
    else if 'A' <= c <= 'F' then c as int - 'A' as int + 10
    else 0
  }

  /** The lower-case digit for `d`, as `toString(16)` writes it. */
  function DigitChar(d: nat): (c: char)
    requires d < 16
    ensures DigitValue(c) == d
    ensures IsRadixDigit(c, 16) && (d < 10 <==> IsDecimalDigit(c))
    ensures d >= 10 ==> 'a' <= c <= 'f'
  {
    if d < 10 then ('0' as int + d) as char else ('a' as int + d - 10) as char
  }

  /** The length of the longest prefix of `s` made of digits of `radix`. */
  function DigitPrefixLength(s: string, radix: nat): (k: nat)
    ensures k <= |s|
    ensures forall i :: 0 <= i < k ==> IsRadixDigit(s[i], radix)
    ensures k < |s| ==> !IsRadixDigit(s[k], radix)
  {
    if s == [] || !IsRadixDigit(s[0], radix) then 0 else 1 + DigitPrefixLength(s[1..], radix)
  }

  /** The value of a digit string, most significant digit first. */
  function DigitsValue(s: string, radix: nat): nat {
    if s == [] then 0 else DigitsValue(s[..|s| - 1], radix) * radix + DigitValue(s[|s| - 1])
  }

  /** `s` without its leading white space. */
  function TrimStart(s: string): (t: string)
    ensures |t| <= |s| && t == s[|s| - |t|..]
    ensures t == [] || !IsWhiteSpace(t[0])
    ensures forall i :: 0 <= i < |s| - |t| ==> IsWhiteSpace(s[i])
  {
    if s != [] && IsWhiteSpace(s[0]) then TrimStart(s[1..]) else s
  }

  /**
   * `parseInt(s)` with the radix left undefined (ECMA-262, "parseInt ( string,
   * radix )"): leading white space is skipped, one sign is accepted, a `0x` or
   * `0X` prefix switches to radix 16, and the longest run of digits after that
   * is read. Without any digit the result is NaN, here `None`. A negative zero
   * is the integer 0, and large values are not rounded to a double.
   */
  function ParseInt(s: string): Option<int> {
    var t := TrimStart(s);
    if t != [] && t[0] == '-' then
      match ParseUnsigned(t[1..])
      case None => None
      case Some(v) => Some(-v)
    else if t != [] && t[0] == '+' then ParseUnsigned(t[1..])
    else ParseUnsigned(t)
  }

  /** The part of `parseInt` after the sign: an optional `0x` prefix, then the leading digits. */
  function ParseUnsigned(u: string): Option<int> {
    if |u| >= 2 && u[0] == '0' && (u[1] == 'x' || u[1] == 'X') then LeadingDigits(u[2..], 16)
    else LeadingDigits(u, 10)
  }

  /** The value of the longest digit prefix of `s`, or NaN when `s` does not start with a digit. */
  function LeadingDigits(s: string, radix: nat): Option<int> {
    var k := DigitPrefixLength(s, radix);
    if k == 0 then None else Some(DigitsValue(s[..k], radix))
  }

  /** `n.toString(radix)` for a non-negative integer `n`: lower-case digits, no leading zero. */
  function ToRadix(n: nat, radix: nat): (s: string)
    requires radix == 10 || radix == 16
    ensures s != []
    ensures forall i :: 0 <= i < |s| ==> IsRadixDigit(s[i], radix)
    decreases n
  {
    if n < radix then [DigitChar(n)]
    else
      var q: nat := n / radix;
      ToRadix(q, radix) + [DigitChar(n % radix)]
  }

  /** Reading back what `toString(radix)` wrote gives the number again. */
  lemma {:induction false} ToRadixValue(n: nat, radix: nat)
    requires radix == 10 || radix == 16
    ensures DigitsValue(ToRadix(n, radix), radix) == n
    decreases n
  {
    if n >= radix {
      var q, r := n / radix, n % radix;
      var p := ToRadix(q, radix);
      var s := ToRadix(n, radix);
      assert s == p + [DigitChar(r)];
      assert s[..|s| - 1] == p && s[|s| - 1] == DigitChar(r);
      ToRadixValue(q, radix);
      assert DigitsValue(s, radix) == q * radix + r;
      assert q * radix + r == n;
    }
  }

  /**
   * `parseInt` reads the leading digits and stops at the first character that
   * is not one: the decimal form of `n` followed by anything that does not
   * continue it (and cannot turn a lone `0` into a `0x` prefix) parses as `n`.
   */
  lemma ParseIntOfDecimal(n: nat, rest: string)
    requires rest == [] || (!IsDecimalDigit(rest[0]) && rest[0] != 'x' && rest[0] != 'X')
    ensures ParseInt(ToRadix(n, 10) + rest) == Some(n)
  {
    var d := ToRadix(n, 10);
    var s := d + rest;
    assert s[0] == d[0];
    if |s| >= 2 && |d| >= 2 { assert s[1] == d[1]; }
    if |s| >= 2 && |d| < 2 { assert s[1] == rest[0]; }
    DigitPrefixOfDigits(d, rest, 10);
    assert s[..|d|] == d;
    ToRadixValue(n, 10);
    ParseIntOfPlainDigits(s);
  }

  /** Without white space, sign or `0x` in front, `parseInt` reads the decimal digit prefix. */
  lemma ParseIntOfPlainDigits(s: string)
    requires s != [] && IsDecimalDigit(s[0])
    requires !(|s| >= 2 && s[0] == '0' && (s[1] == 'x' || s[1] == 'X'))
    ensures ParseInt(s) == Some(DigitsValue(s[..DigitPrefixLength(s, 10)], 10))
  {
    assert !IsWhiteSpace(s[0]);
    assert TrimStart(s) == s;
    assert s[0] != '-' && s[0] != '+';
    assert ParseUnsigned(s) == LeadingDigits(s, 10);
  }

  /** A run of digits followed by a non-digit is exactly the digit prefix. */
  lemma {:induction false} DigitPrefixOfDigits(d: string, rest: string, radix: nat)
    requires forall i :: 0 <= i < |d| ==> IsRadixDigit(d[i], radix)
    requires rest == [] || !IsRadixDigit(rest[0], radix)
    ensures DigitPrefixLength(d + rest, radix) == |d|
  {
    if d == [] {
      assert d + rest == rest;
    } else {
      assert (d + rest)[0] == d[0];
      assert (d + rest)[1..] == d[1..] + rest;
      DigitPrefixOfDigits(d[1..], rest, radix);
    }
  }

  /** A string whose first character is neither white space, a sign nor a decimal digit parses to NaN. */
  lemma ParseIntNoDigits(s: string)
    requires s != [] && !IsWhiteSpace(s[0]) && !IsDecimalDigit(s[0]) && s[0] != '-' && s[0] != '+'
    ensures ParseInt(s) == None
  {
    assert TrimStart(s) == s;
  }

  /** Whether `pattern` occurs in `s` starting at index `j`. */
  predicate OccursAt(s: string, pattern: string, j: int) {
    0 <= j && j + |pattern| <= |s| && s[j..j + |pattern|] == pattern
  }

  /** The first index at or after `from` where `pattern` occurs in `s`, or -1. */
  function IndexFrom(s: string, pattern: string, from: nat): (i: int)
    ensures i == -1 || (from <= i && OccursAt(s, pattern, i))
    ensures forall j :: from <= j < (if i == -1 then |s| + 1 else i) ==> !OccursAt(s, pattern, j)
    decreases |s| + 1 - from
  {
    if from + |pattern| > |s| then -1
    else if OccursAt(s, pattern, from) then from
    else IndexFrom(s, pattern, from + 1)
  }

  /** `s.indexOf(pattern)`. */
  function IndexOf(s: string, pattern: string): int {
    IndexFrom(s, pattern, 0)
  }

  /** `s.replace(pattern, "")` with a string pattern: only the first occurrence is removed. */
  function ReplaceFirst(s: string, pattern: string): string {
    var i := IndexOf(s, pattern);
    if i < 0 then s else s[..i] + s[i + |pattern|..]
  }

  /** Removing a pattern that starts the string leaves exactly what follows it. */
  lemma ReplaceFirstOfPrefixed(pattern: string, rest: string)
    ensures ReplaceFirst(pattern + rest, pattern) == rest
  {
    assert OccursAt(pattern + rest, pattern, 0);
  }

  /** A pattern holding a character that `s` does not contain cannot occur in it, so nothing is removed. */
  lemma ReplaceFirstAbsent(s: string, pattern: string, c: char)
    requires c in pattern && c !in s
    ensures ReplaceFirst(s, pattern) == s
  {
  }

  /** `s.startsWith(prefix)`. */
  predicate StartsWith(s: string, prefix: string) {
    |prefix| <= |s| && s[..|prefix|] == prefix
  }

  /** An index argument of `substring` brought into `[0, len]`. */
  function Clamp(x: int, len: nat): (r: nat)
    ensures r <= len
  {
    if x < 0 then 0 else if x > len then len else x
  }

  /** `s.substring(start, end)`: both bounds are clamped to the string, then swapped if out of order. */
  function Substring(s: string, start: int, end: int): (r: string)
    ensures 0 <= start <= end <= |s| ==> r == s[start..end]
    ensures |r| <= |s|
  {
    var a := Clamp(start, |s|);
    var b := Clamp(end, |s|);
    if a <= b then s[a..b] else s[b..a]
  }
}
