/** The string built-ins the components rely on: `trim`, `toLowerCase`,
    `split('.').pop()` and `parseInt`, over ASCII characters. */
module JsText {

  /** A character of the ASCII part of the JavaScript whitespace class
      (space, tab, line feed, vertical tab, form feed, carriage return). */
  predicate IsSpace(c: char) {
    c == ' ' || c == '\t' || c == '\n' || c == '\r' || c == '\U{000B}' || c == '\U{000C}'
  }

  /** Every character of `s` is whitespace (the empty string included). */
  predicate IsBlank(s: string) {
    forall i :: 0 <= i < |s| ==> IsSpace(s[i])
  }

  predicate HasSpace(s: string) {
    exists i :: 0 <= i < |s| && IsSpace(s[i])
  }

  /** Leading whitespace removed. */
  function TrimStart(s: string): (r: string)
    ensures |r| <= |s| && r == s[|s| - |r|..]
    ensures IsBlank(s[..|s| - |r|])
    ensures r == [] || !IsSpace(r[0])
  {
    if s != [] && IsSpace(s[0]) then TrimStart(s[1..]) else s
  }

  /** Trailing whitespace removed. */
  function TrimEnd(s: string): (r: string)
    ensures |r| <= |s| && r == s[..|r|]
    ensures IsBlank(s[|r|..])
    ensures r == [] || !IsSpace(r[|r| - 1])
  {
    if s != [] && IsSpace(s[|s| - 1]) then TrimEnd(s[..|s| - 1]) else s
  }

  /** `s.trim()`. */
  function Trim(s: string): string {
    TrimEnd(TrimStart(s))
  }

  /** `!s.trim()` holds exactly for the blank strings: a trimmed string is
      empty iff every character of the input is whitespace. */
  lemma TrimEmptyIffBlank(s: string)
    ensures Trim(s) == [] <==> IsBlank(s)
  {
    var t := TrimStart(s);
    assert s == s[..|s| - |t|] + t;
    if t == [] {
      assert s == s[..|s| - |t|];
    } else {
      assert s[|s| - |t|] == t[0];
    }
  }

  predicate IsUpper(c: char) {
    'A' <= c <= 'Z'
  }

  /** `toLowerCase` on one ASCII character. */
  function ToLower(c: char): (r: char)
    ensures !IsUpper(r)
    ensures IsUpper(c) ==> 'a' <= r <= 'z' && r as int == c as int + 32
    ensures IsSpace(r) <==> IsSpace(c)
    ensures !IsUpper(c) ==> r == c
  {
    if IsUpper(c) then (c as int + 32) as char else c
  }

  /** `name.split('.').pop()`: the text after the last '.', or all of `name`
      when it holds no '.'. */
  function Extension(name: string): string {
    if name == [] then []
    else if name[|name| - 1] == '.' then []
    else Extension(name[..|name| - 1]) + [name[|name| - 1]]
  }

  /** The extension holds no '.', ends the name, and is preceded by a '.'
      whenever it is not the whole name. */
  lemma {:induction false} ExtensionShape(name: string)
    ensures var ext := Extension(name);
      && '.' !in ext
      && |ext| <= |name| && ext == name[|name| - |ext|..]
      && (|ext| < |name| ==> name[|name| - |ext| - 1] == '.')
    decreases |name|
  {
    if name != [] && name[|name| - 1] != '.' {
      var init := name[..|name| - 1];
      ExtensionShape(init);
      var e := Extension(init);
      assert Extension(name) == e + [name[|name| - 1]];
      assert init[|init| - |e|..] + [name[|name| - 1]] == name[|name| - |e| - 1..];
    }
  }

  /** With no '.' in the name, the whole name is its extension. */
  lemma ExtensionWithoutDot(name: string)
    requires '.' !in name
    ensures Extension(name) == name
  {
    ExtensionShape(name);
    var ext := Extension(name);
    if |ext| < |name| {
      assert false;
    }
  }

  /** With a '.' in the name, the name is a prefix, a '.', then the extension. */
  lemma ExtensionAfterLastDot(name: string)
    requires '.' in name
    ensures |Extension(name)| < |name|
    ensures name == name[..|name| - |Extension(name)| - 1] + "." + Extension(name)
  {
    ExtensionShape(name);
    var ext := Extension(name);
    var k := |name| - |ext| - 1;
    assert name[k + 1..] == ext;
    assert name == name[..k] + [name[k]] + name[k + 1..];
  }

  predicate IsDigit(c: char) {
    '0' <= c <= '9'
  }

  function DigitValue(c: char): nat
    requires IsDigit(c)
  {
    c as int - '0' as int
  }

  function DigitChar(d: nat): (c: char)
    requires d < 10
    ensures IsDigit(c) && DigitValue(c) == d
  {
    ('0' as int + d) as char
  }

  /** The longest run of decimal digits at the start of `s`. */
  function DigitPrefix(s: string): (d: string)
    ensures |d| <= |s| && d == s[..|d|]
    ensures forall i :: 0 <= i < |d| ==> IsDigit(d[i])
    ensures |d| < |s| ==> !IsDigit(s[|d|])
  {
    if s != [] && IsDigit(s[0]) then [s[0]] + DigitPrefix(s[1..]) else []
  }

  /** The number a string of decimal digits denotes. */
  function DigitsValue(d: string): nat
    requires forall i :: 0 <= i < |d| ==> IsDigit(d[i])
  {
    if d == [] then 0 else DigitsValue(d[..|d| - 1]) * 10 + DigitValue(d[|d| - 1])
  }

  /** The result of `parseInt`: a number, or NaN when no digit follows the
      optional whitespace and sign. */
  datatype Parsed = NaN | Num(n: int)

  /** `parseInt(s)` with no radix, for decimal input: skip leading
      whitespace, read an optional sign, then the longest run of digits. */
  function ParseInt(s: string): Parsed {
    var t := TrimStart(s);
    var negative := t != [] && t[0] == '-';
    var rest := if t != [] && (t[0] == '-' || t[0] == '+') then t[1..] else t;
    var digits := DigitPrefix(rest);
    if digits == [] then NaN
    else
      var value: int := DigitsValue(digits);
      if negative then Num(-value) else Num(value)
  }

  /** The decimal digits of a natural number, without leading zeros. */
  function Digits(n: nat): (d: string)
    ensures d != [] && forall i :: 0 <= i < |d| ==> IsDigit(d[i])
  {
    if n < 10 then [DigitChar(n)] else Digits(n / 10) + [DigitChar(n % 10)]
  }

  /** `String(n)` for an integer. */
  function Decimal(n: int): string {
    if n < 0 then "-" + Digits(-n) else Digits(n)
  }

  lemma {:induction false} DigitsValueOfDigits(n: nat)
    ensures DigitsValue(Digits(n)) == n
  {
    if n >= 10 {
      var d := Digits(n);
      assert d[..|d| - 1] == Digits(n / 10);
      DigitsValueOfDigits(n / 10);
    }
  }

  lemma {:induction false} DigitPrefixOfDigits(d: string, tail: string)
    requires forall i :: 0 <= i < |d| ==> IsDigit(d[i])
    requires tail == [] || !IsDigit(tail[0])
    ensures DigitPrefix(d + tail) == d
  {
    if d != [] {
      assert (d + tail)[1..] == d[1..] + tail;
      DigitPrefixOfDigits(d[1..], tail);
    }
  }

  /** `parseInt` reads back every integer written in decimal. */
  lemma ParseIntDecimal(n: int)
    ensures ParseInt(Decimal(n)) == Num(n)
  {
    var m: nat := if n < 0 then -n else n;
    var d := Digits(m);
    DigitsValueOfDigits(m);
    DigitPrefixOfDigits(d, []);
    assert d + [] == d;
    var s := Decimal(n);
    assert !IsSpace(s[0]);
    assert TrimStart(s) == s;
    if n < 0 {
      assert s[0] == '-';
      assert s[1..] == d;
    } else {
      assert s == d && IsDigit(s[0]);
    }
  }

  /** A string without any digit is not a number to `parseInt`. */
  lemma ParseIntWithoutDigits(s: string)
    requires forall i :: 0 <= i < |s| ==> !IsDigit(s[i])
    ensures ParseInt(s) == NaN
  {
    var t := TrimStart(s);
    var rest := if t != [] && (t[0] == '-' || t[0] == '+') then t[1..] else t;
    assert rest == s[|s| - |rest|..];
  }
}
