/** The string built-ins the pages rely on: `trim`, `toLowerCase`,
    `includes`, `parseInt` and the decimal form of an integer. */
module JsStrings {

  import opened JsValues

  /** The characters ECMAScript's `trim` and `parseInt` skip: the
      WhiteSpace set (tab, vertical tab, form feed, space, no-break space,
      byte order mark and the other space separators) and the
      LineTerminator set (line feed, carriage return, U+2028, U+2029). */
  predicate IsJsSpace(c: char)
  {
    c == '\t' || c == '\n' || c == '\U{000B}' || c == '\U{000C}' || c == '\r' ||
    c == ' ' || c == '\U{00A0}' || c == '\U{1680}' || ('\U{2000}' <= c <= '\U{200A}') ||
    c == '\U{2028}' || c == '\U{2029}' || c == '\U{202F}' || c == '\U{205F}' ||
    c == '\U{3000}' || c == '\U{FEFF}'
  }

  /** All characters of `s` are white space (vacuously so for ""). */
  predicate IsBlank(s: string)
  {
    forall i :: 0 <= i < |s| ==> IsJsSpace(s[i])
  }

  /** `s` with its leading white space removed. */
  function TrimStart(s: string): (r: string)
    ensures |r| <= |s| && r == s[|s| - |r|..]
    ensures r != "" ==> !IsJsSpace(r[0])
    ensures IsBlank(s[..|s| - |r|])
  {
    if s != "" && IsJsSpace(s[0]) then TrimStart(s[1..]) else s
  }

  /** `s` with its trailing white space removed. */
  function TrimEnd(s: string): (r: string)
    ensures |r| <= |s| && r == s[..|r|]
    ensures r != "" ==> !IsJsSpace(r[|r| - 1])
    ensures IsBlank(s[|r|..])
  {
    if s != "" && IsJsSpace(s[|s| - 1]) then TrimEnd(s[..|s| - 1]) else s
  }

  /** `s.trim()`. */
  function Trim(s: string): string
  {
    TrimEnd(TrimStart(s))
  }

  /** `s.trim()` is the empty string exactly when `s` is all white space,
      which is what the test `current.trim()` of the trek-day decoder
      distinguishes. */
  lemma {:induction false} TrimEmptyIffBlank(s: string)
    ensures Trim(s) == "" <==> IsBlank(s)
  {
    var t := TrimStart(s);
    var k := |s| - |t|;
    if Trim(s) == "" {
      assert IsBlank(t[0..]);
      forall i | 0 <= i < |s| ensures IsJsSpace(s[i]) {
        if i < k {
          assert s[..k][i] == s[i];
        } else {
          assert t[i - k] == s[i];
          assert t[0..][i - k] == t[i - k];
        }
      }
    } else {
      assert |t| > 0 && !IsJsSpace(t[0]);
      assert t[0] == s[k];
    }
  }

  /** ASCII upper-case letters become lower case; every other character is
      kept. */
  function LowerChar(c: char): char
  {
    if 'A' <= c <= 'Z' then (c as int + 32) as char else c
  }

  /** `s.toLowerCase()`, restricted to ASCII letters. */
  function ToLower(s: string): (r: string)
    ensures |r| == |s|
    ensures forall i :: 0 <= i < |s| ==> r[i] == LowerChar(s[i])
  {
    if s == [] then [] else [LowerChar(s[0])] + ToLower(s[1..])
  }

  /** `t` occurs in `s` starting at index `i`. */
  predicate OccursAt(s: string, t: string, i: nat)
  {
    i + |t| <= |s| && s[i..i + |t|] == t
  }

  /** `s.includes(t)`: `t` occurs in `s` as a contiguous piece. */
  predicate Contains(s: string, t: string)
  {
    exists i: nat | i <= |s| :: OccursAt(s, t, i)
  }

  /** Whether `c` is one of the ten decimal digits. */
  predicate IsDigit(c: char)
  {
    '0' <= c <= '9'
  }

  function DigitValue(c: char): nat
    requires IsDigit(c)
  {
    c as int - '0' as int
  }

  function DigitChar(d: nat): (c: char)
    requires d < 10
    ensures IsDigit(c) && DigitValue(c) == d
  {
    ('0' as int + d) as char
  }

  /** The decimal digits of `n`, without leading zeros (`String(n)`). */
  function NatToString(n: nat): (r: string)
    ensures r != ""
    ensures forall i :: 0 <= i < |r| ==> IsDigit(r[i])
  {
    if n < 10 then [DigitChar(n)] else NatToString(n / 10) + [DigitChar(n % 10)]
  }

  /** `String(n)` for an integer `n`. */
  function IntToString(n: int): string
  {
    if n < 0 then "-" + NatToString(-n) else NatToString(n)
  }

  /** The longest prefix of `s` made of decimal digits. */
  function LeadingDigits(s: string): (r: string)
    ensures |r| <= |s| && r == s[..|r|]
    ensures forall i :: 0 <= i < |r| ==> IsDigit(r[i])
    ensures |r| < |s| ==> !IsDigit(s[|r|])
  {
    if s != "" && IsDigit(s[0]) then [s[0]] + LeadingDigits(s[1..]) else ""
  }

  /** The number a string of decimal digits denotes. */
  function DigitsValue(ds: string): nat
    requires forall i :: 0 <= i < |ds| ==> IsDigit(ds[i])
  {
    if ds == "" then 0 else DigitsValue(ds[..|ds| - 1]) * 10 + DigitValue(ds[|ds| - 1])
  }

  /** `parseInt(s)` with no radix, for decimal input: leading white space is
      skipped, then an optional sign, then the longest run of digits; no
      digit at all gives `NaN`, which is `None` here. */
  function ParseInt(s: string): Option<int>
  {
    var t := TrimStart(s);
    var negative := t != "" && t[0] == '-';
    var body := if t != "" && (t[0] == '-' || t[0] == '+') then t[1..] else t;
    var ds := LeadingDigits(body);
    if ds == "" then None
    else if negative then Some(-(DigitsValue(ds) as int))
    else Some(DigitsValue(ds) as int)
  }

  lemma {:induction false} DigitsValueOfNatToString(n: nat)
    ensures DigitsValue(NatToString(n)) == n
  {
    var r := NatToString(n);
    if n >= 10 {
      DigitsValueOfNatToString(n / 10);
      assert r[..|r| - 1] == NatToString(n / 10);
    }
  }

  /** The digit run of a string of digits followed by a non-digit (or by
      nothing) is exactly those digits. */
  lemma {:induction false} LeadingDigitsOfDigits(ds: string, rest: string)
    requires forall i :: 0 <= i < |ds| ==> IsDigit(ds[i])
    requires rest == "" || !IsDigit(rest[0])
    ensures LeadingDigits(ds + rest) == ds
  {
    if ds != "" {
      LeadingDigitsOfDigits(ds[1..], rest);
      assert (ds + rest)[1..] == ds[1..] + rest;
      assert [ds[0]] + ds[1..] == ds;
    }
  }

  /** `parseInt` of a string that starts with a digit or a minus sign
      reads the digit run that follows. */
  lemma ParseIntOfUnsigned(s: string, ds: string)
    requires s != "" && IsDigit(s[0]) && LeadingDigits(s) == ds
    ensures ParseInt(s) == Some(DigitsValue(ds) as int)
  {
    assert !IsJsSpace(s[0]) && s[0] != '-' && s[0] != '+';
    assert TrimStart(s) == s;
    assert ds != "";
  }

  lemma ParseIntOfNegative(s: string, ds: string)
    requires s != "" && s[0] == '-' && LeadingDigits(s[1..]) == ds && ds != ""
    ensures ParseInt(s) == Some(-(DigitsValue(ds) as int))
  {
    assert !IsJsSpace(s[0]);
    assert TrimStart(s) == s;
  }

  lemma ParseIntOfNegativeInt(n: int, rest: string)
    requires n < 0 && (rest == "" || !IsDigit(rest[0]))
    ensures ParseInt(IntToString(n) + rest) == Some(n)
  {
    var m: nat := -n;
    var ds := NatToString(m);
    assert IntToString(n) == "-" + ds;
    ParseIntOfSignedText(IntToString(n), ds, rest);
    DigitsValueOfNatToString(m);
  }

  lemma ParseIntOfSignedText(t: string, ds: string, rest: string)
    requires t == "-" + ds && ds != "" && forall i :: 0 <= i < |ds| ==> IsDigit(ds[i])
    requires rest == "" || !IsDigit(rest[0])
    ensures ParseInt(t + rest) == Some(-(DigitsValue(ds) as int))
  {
    SignedTail(t, ds, rest);
    LeadingDigitsOfDigits(ds, rest);
    ParseIntOfNegative(t + rest, ds);
  }

  lemma SignedTail(t: string, ds: string, rest: string)
    requires t == "-" + ds
    ensures (t + rest)[0] == '-' && (t + rest)[1..] == ds + rest
  {
  }

  lemma ParseIntOfNonNegativeInt(n: int, rest: string)
    requires n >= 0 && (rest == "" || !IsDigit(rest[0]))
    ensures ParseInt(IntToString(n) + rest) == Some(n)
  {
    var ds := NatToString(n);
    DigitsValueOfNatToString(n);
    LeadingDigitsOfDigits(ds, rest);
    var s := IntToString(n) + rest;
    assert s == ds + rest && s[0] == ds[0];
    ParseIntOfUnsigned(s, ds);
  }

  /** `parseInt` reads back what `String` writes, for every integer, also
      when a unit such as `" days"` follows the number. */
  lemma ParseIntOfIntToString(n: int, rest: string)
    requires rest == "" || !IsDigit(rest[0])
    ensures ParseInt(IntToString(n) + rest) == Some(n)
  {
    if n < 0 {
      ParseIntOfNegativeInt(n, rest);
    } else {
      ParseIntOfNonNegativeInt(n, rest);
    }
  }

  /** A string with no decimal digit in it parses to `NaN`. */
  lemma ParseIntWithoutDigits(s: string)
    requires forall i :: 0 <= i < |s| ==> !IsDigit(s[i])
    ensures ParseInt(s) == None
  {
    var t := TrimStart(s);
    var body := if t != "" && (t[0] == '-' || t[0] == '+') then t[1..] else t;
    if body != "" {
      assert body[0] in s;
    }
  }
}
