/**
 * Character-level helpers that mirror the Python built-ins the bridge relies on:
 * `str.isspace`, `str.strip`, `str.startswith`, `int(str)` and `str(int)`.
 * Only the ASCII digits are modelled for `int()`.
 */
module Text {
  import opened Wrappers

  /** Python's `str.isspace` (the Unicode White_Space characters). `\s` in a
      `str` regular expression and `str.strip()` use the same set. */
  predicate IsSpace(c: char) {
    || ('\t' <= c <= '\r')
    || ('\U{1c}' <= c <= ' ')
    || c == '\U{85}' || c == '\U{a0}' || c == '\U{1680}'
    || ('\U{2000}' <= c <= '\U{200a}')
    || c == '\U{2028}' || c == '\U{2029}' || c == '\U{202f}' || c == '\U{205f}' || c == '\U{3000}'
  }

  /** `s.lstrip()` */
  function TrimStart(s: string): (r: string)
    ensures |r| <= |s|
  {
    if s != [] && IsSpace(s[0]) then TrimStart(s[1..]) else s
  }

  /** `s.rstrip()` */
  function TrimEnd(s: string): (r: string)
    ensures |r| <= |s|
  {
    if s != [] && IsSpace(s[|s| - 1]) then TrimEnd(s[..|s| - 1]) else s
  }

  /** `s.strip()` */
  function Strip(s: string): (r: string)
    ensures |r| <= |s|
  {
    TrimEnd(TrimStart(s))
  }

  /** `lstrip` drops exactly the leading whitespace. */
  lemma {:induction false} TrimStartSpec(s: string)
    ensures var r := TrimStart(s);
            && |r| <= |s| && r == s[|s| - |r|..]
            && (r == [] || !IsSpace(r[0]))
            && forall i :: 0 <= i < |s| - |r| ==> IsSpace(s[i])
  {
    if s != [] && IsSpace(s[0]) {
      TrimStartSpec(s[1..]);
    }
  }

  /** `rstrip` drops exactly the trailing whitespace. */
  lemma {:induction false} TrimEndSpec(s: string)
    ensures var r := TrimEnd(s);
            && |r| <= |s| && r == s[..|r|]
            && (r == [] || !IsSpace(r[|r| - 1]))
            && forall i :: |r| <= i < |s| ==> IsSpace(s[i])
  {
    if s != [] && IsSpace(s[|s| - 1]) {
      TrimEndSpec(s[..|s| - 1]);
    }
  }

  /** Stripping keeps the infix of `s` between its leading and its trailing
      whitespace; it is empty exactly when `s` is all whitespace. */
  lemma StripSpec(s: string)
    ensures var i := |s| - |TrimStart(s)|; i + |Strip(s)| <= |s| && Strip(s) == s[i..i + |Strip(s)|]
    ensures Strip(s) != [] ==> !IsSpace(Strip(s)[0]) && !IsSpace(Strip(s)[|Strip(s)| - 1])
    ensures Strip(s) == [] <==> forall i :: 0 <= i < |s| ==> IsSpace(s[i])
  {
    var t := TrimStart(s);
    TrimStartSpec(s);
    TrimEndSpec(t);
    var i := |s| - |t|;
    if Strip(s) == [] {
      assert t == [];
    } else {
      assert Strip(s)[0] == t[0];
    }
  }

  /** A string with no surrounding whitespace is left alone by `strip`. */
  lemma StripNoop(s: string)
    requires s == [] || (!IsSpace(s[0]) && !IsSpace(s[|s| - 1]))
    ensures Strip(s) == s
  {
    TrimStartSpec(s);
    TrimEndSpec(s);
  }

  /** `s[:n]` in Python: the first `n` characters, or all of them if `s` is shorter. */
  function Take(s: string, n: nat): (r: string)
    ensures |r| == if |s| < n then |s| else n
    ensures r == s[..|r|]
  {
    if |s| < n then s else s[..n]
  }

  /** `s.startswith(p)` */
  predicate StartsWith(s: string, p: string) {
    |p| <= |s| && s[..|p|] == p
  }

  predicate IsDigit(c: char) {
    '0' <= c <= '9'
  }

  function DigitValue(c: char): (d: nat)
    requires IsDigit(c)
    ensures d < 10
  {
    c as int - '0' as int
  }

  function DigitChar(d: nat): (c: char)
    requires d < 10
    ensures IsDigit(c) && DigitValue(c) == d
  {
    ('0' as int + d) as char
  }

  /** The digit part that Python's `int()` accepts: ASCII digits, where a single
      underscore may separate two digits (`"1_000"`). */
  predicate DigitRun(s: string)
    decreases |s|
  {
    && |s| > 0
    && IsDigit(s[0])
    && (|s| == 1 || (if s[1] == '_' then DigitRun(s[2..]) else DigitRun(s[1..])))
  }

  /** The base-10 value of the digits of `s` appended to `acc`; underscores are skipped. */
  function RunValue(s: string, acc: nat): nat
  {
    if s == [] then acc
    else RunValue(s[1..], if IsDigit(s[0]) then 10 * acc + DigitValue(s[0]) else acc)
  }

  /** Python `int(s)` for a `str` argument: surrounding whitespace is ignored, then one
      optional sign and a digit run; anything else raises `ValueError` (`None`). */
  function ParseInt(s: string): Option<int>
  {
    var t := Strip(s);
    if t != [] && (t[0] == '+' || t[0] == '-') then
      if DigitRun(t[1..]) then
        var n: int := RunValue(t[1..], 0);
        Some(if t[0] == '-' then -n else n)
      else None
    else if DigitRun(t) then Some(RunValue(t, 0))
    else None
  }

  /** Three ASCII digits are read as the number they spell. */
  lemma ParseThreeDigits(s: string)
    requires |s| == 3 && IsDigit(s[0]) && IsDigit(s[1]) && IsDigit(s[2])
    ensures ParseInt(s) == Some(100 * DigitValue(s[0]) + 10 * DigitValue(s[1]) + DigitValue(s[2]))
  {
    assert !IsSpace(s[0]) && !IsSpace(s[2]);
    StripNoop(s);
    assert s[1..][1..] == s[2..] && s[2..][1..] == [];
    assert DigitRun(s[2..]);
    assert DigitRun(s[1..]);
    assert RunValue(s, 0) == RunValue(s[1..], DigitValue(s[0]));
    assert RunValue(s[1..], DigitValue(s[0])) == RunValue(s[2..], 10 * DigitValue(s[0]) + DigitValue(s[1]));
  }

  /** A prefix that holds no digit at all never parses. */
  lemma ParseRejectsNoDigits(s: string)
    requires forall i :: 0 <= i < |s| ==> !IsDigit(s[i])
    ensures ParseInt(s) == None
  {
    var t := Strip(s);
    StripSpec(s);
    var i := |s| - |TrimStart(s)|;
    assert forall j :: 0 <= j < |t| ==> t[j] == s[i + j];
    if t != [] {
      assert !IsDigit(t[0]);
      if |t| > 1 {
        assert !IsDigit(t[1..][0]);
      }
    }
  }

  /** Python `str(n)` for a non-negative integer. */
  function NatToString(n: nat): (r: string)
    ensures |r| > 0
  {
    if n < 10 then [DigitChar(n)] else NatToString(n / 10) + [DigitChar(n % 10)]
  }

  /** Python `str(n)` for any integer. */
  function IntToString(n: int): string
  {
    if n < 0 then "-" + NatToString(-n) else NatToString(n)
  }

  lemma DigitRoundTrip(c: char)
    requires IsDigit(c)
    ensures DigitChar(DigitValue(c)) == c
  {
  }

  /** Printing a three-digit number without a leading zero gives its digits back. */
  lemma PrintThreeDigits(s: string)
    requires |s| == 3 && IsDigit(s[0]) && IsDigit(s[1]) && IsDigit(s[2]) && s[0] != '0'
    ensures IntToString(100 * DigitValue(s[0]) + 10 * DigitValue(s[1]) + DigitValue(s[2])) == s
  {
    var a, b, c := DigitValue(s[0]), DigitValue(s[1]), DigitValue(s[2]);
    var n := 100 * a + 10 * b + c;
    assert n / 10 == 10 * a + b && n % 10 == c;
    assert (10 * a + b) / 10 == a && (10 * a + b) % 10 == b;
    DigitRoundTrip(s[0]);
    DigitRoundTrip(s[1]);
    DigitRoundTrip(s[2]);
    assert NatToString(a) == [s[0]];
    assert NatToString(10 * a + b) == [s[0], s[1]];
  }
}
