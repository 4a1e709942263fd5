/**
 * The C library string routines the parsers rely on, over character
 * sequences: the C-string view of a NUL-terminated buffer, atoi() and a
 * case-insensitive prefix test (strncasecmp(...) == 0). Characters are the
 * bytes 0..255 of the C code; integers are unbounded, so atoi() here does not
 * model the undefined behaviour of an out-of-range value.
 */
module CStrings {
  const Nul: char := 0 as char

  /** The C string a buffer holds: everything before its first NUL. */
  function CStr(s: seq<char>): (r: seq<char>)
    ensures |r| <= |s| && r == s[..|r|]
    ensures Nul !in r
    ensures |r| < |s| ==> s[|r|] == Nul
  {
    if s == [] || s[0] == Nul then [] else [s[0]] + CStr(s[1..])
  }

  /** A string without NUL is its own C string. */
  lemma {:induction false} CStrOfPlain(s: seq<char>)
    requires Nul !in s
    ensures CStr(s) == s
  {
    if s != [] {
      CStrOfPlain(s[1..]);
    }
  }

  lemma NulFreeSuffix(s: seq<char>, k: nat)
    requires Nul !in s && k <= |s|
    ensures Nul !in s[k..]
  {
    forall i | 0 <= i < |s| - k
      ensures s[k..][i] != Nul
    {
      assert s[k..][i] == s[i + k];
    }
  }

  /** A NUL ends the C string, whatever follows it. */
  lemma {:induction false} CStrStopsAtNul(s: seq<char>, rest: seq<char>)
    ensures CStr(s + [Nul] + rest) == CStr(s)
  {
    if s == [] {
      assert (s + [Nul] + rest)[0] == Nul;
    } else if s[0] != Nul {
      assert (s + [Nul] + rest)[1..] == s[1..] + [Nul] + rest;
      CStrStopsAtNul(s[1..], rest);
    }
  }

  /** The C string of a buffer whose element n is a NUL lies within its first n elements. */
  lemma CStrOfTerminated(s: seq<char>, n: nat)
    requires n < |s| && s[n] == Nul
    ensures CStr(s) == CStr(s[..n])
  {
    assert s == s[..n] + [Nul] + s[n + 1..];
    CStrStopsAtNul(s[..n], s[n + 1..]);
  }

  /** isspace() in the C locale. */
  predicate IsSpace(c: char) {
    c == ' ' || c == '\t' || c == '\n' || c == '\r' || c == 11 as char || c == 12 as char
  }

  predicate IsDigit(c: char) {
    '0' <= c <= '9'
  }

  /** The digits a string starts with. */
  function LeadingDigits(s: seq<char>): (r: seq<char>)
    ensures |r| <= |s| && r == s[..|r|]
    ensures forall i :: 0 <= i < |r| ==> IsDigit(r[i])
    ensures |r| < |s| ==> !IsDigit(s[|r|])
  {
    if s == [] || !IsDigit(s[0]) then [] else [s[0]] + LeadingDigits(s[1..])
  }

  /** The value of a string of decimal digits. */
  function DigitsValue(ds: seq<char>): nat
    requires forall i :: 0 <= i < |ds| ==> IsDigit(ds[i])
  {
    if ds == [] then 0
    else
      assert IsDigit(ds[|ds| - 1]);
      DigitsValue(ds[..|ds| - 1]) * 10 + ((ds[|ds| - 1] as int) - ('0' as int))
  }

  function SkipSpaces(s: seq<char>): (r: seq<char>)
    ensures |r| <= |s| && r == s[|s| - |r|..]
    ensures r != [] ==> !IsSpace(r[0])
  {
    if s != [] && IsSpace(s[0]) then SkipSpaces(s[1..]) else s
  }

  /** atoi(): leading white space, an optional sign, then the longest run of digits. */
  function Atoi(s: seq<char>): int {
    var t := SkipSpaces(s);
    if t != [] && t[0] == '-' then -(DigitsValue(LeadingDigits(t[1..])) as int)
    else if t != [] && t[0] == '+' then DigitsValue(LeadingDigits(t[1..]))
    else DigitsValue(LeadingDigits(t))
  }

  /** The decimal numeral of n, without leading zeros. */
  function Decimal(n: nat): (r: seq<char>)
    ensures r != [] && forall i :: 0 <= i < |r| ==> IsDigit(r[i])
  {
    if n < 10 then [('0' as int + n) as char]
    else Decimal(n / 10) + [('0' as int + n % 10) as char]
  }

  lemma {:induction false} DecimalValue(n: nat)
    ensures DigitsValue(Decimal(n)) == n
  {
    if n >= 10 {
      DecimalValue(n / 10);
      var r := Decimal(n);
      assert r[..|r| - 1] == Decimal(n / 10);
    }
  }

  lemma {:induction false} LeadingDigitsOfDigits(ds: seq<char>, rest: seq<char>)
    requires forall i :: 0 <= i < |ds| ==> IsDigit(ds[i])
    requires rest == [] || !IsDigit(rest[0])
    ensures LeadingDigits(ds + rest) == ds
  {
    if ds != [] {
      assert (ds + rest)[1..] == ds[1..] + rest;
      LeadingDigitsOfDigits(ds[1..], rest);
    }
  }

  /** atoi() reads back a numeral, whatever non-digit text follows it. */
  lemma AtoiDecimal(n: nat, rest: seq<char>)
    requires rest == [] || !IsDigit(rest[0])
    ensures Atoi(Decimal(n) + rest) == n
  {
    var d := Decimal(n);
    var t := d + rest;
    assert t[0] == d[0] && IsDigit(d[0]);
    assert !IsSpace(t[0]) && t[0] != '-' && t[0] != '+';
    assert SkipSpaces(t) == t;
    assert Atoi(t) == DigitsValue(LeadingDigits(t));
    LeadingDigitsOfDigits(d, rest);
    DecimalValue(n);
  }

  /** tolower() in the C locale. */
  function ToLower(c: char): char {
    if 'A' <= c <= 'Z' then ((c as int) + 32) as char else c
  }

  /**
   * strncasecmp(s, lit, |lit|) == 0 for a C string s and a literal without
   * NUL: s is at least as long as lit and agrees with it up to case.
   */
  predicate CaseInsensitivePrefix(s: seq<char>, lit: seq<char>) {
    |lit| <= |s| && forall i :: 0 <= i < |lit| ==> ToLower(s[i]) == ToLower(lit[i])
  }
}
