/** Decimal rendering of integers, as C# string interpolation does it in a
    culture whose negative sign is "-", and the reading functions that undo it. The
    reading side exists to state that a rendered text determines what was
    rendered. */
module Text {
  import opened Wrappers

  predicate IsDigit(c: char) { '0' <= c <= '9' }

  predicate AllDigits(s: string) {
    forall i | 0 <= i < |s| :: IsDigit(s[i])
  }

  function DigitChar(d: nat): (c: char)
    requires d < 10
    ensures IsDigit(c) && c as int - '0' as int == d
  {
    ('0' as int + d) as char
  }

  function DigitValue(c: char): nat
    requires IsDigit(c)
  {
    c as int - '0' as int
  }

  /** Decimal digits of n, most significant first, without leading zeros. */
  function NatToString(n: nat): (s: string)
    ensures 0 < |s| && AllDigits(s)
    decreases n
  {
    if n < 10 then [DigitChar(n)] else NatToString(n / 10) + [DigitChar(n % 10)]
  }

  /** The number a string of decimal digits denotes. */
  function DigitsValue(s: string): nat
    requires AllDigits(s)
    decreases |s|
  {
    if s == [] then 0 else DigitsValue(s[..|s| - 1]) * 10 + DigitValue(s[|s| - 1])
  }

  lemma {:induction false} DigitsValueOfNatToString(n: nat)
    ensures DigitsValue(NatToString(n)) == n
    decreases n
  {
    if n >= 10 {
      var s := NatToString(n);
      assert s[..|s| - 1] == NatToString(n / 10);
      DigitsValueOfNatToString(n / 10);
    }
  }

  /** An int as `{i}` renders it: a minus sign for negative values, then the digits. */
  function IntToString(i: int): string {
    if i < 0 then "-" + NatToString(-i) else NatToString(i)
  }

  /** Length of the leading run of decimal digits of s. */
  function DigitRun(s: string): (n: nat)
    ensures n <= |s| && AllDigits(s[..n])
    ensures n < |s| ==> !IsDigit(s[n])
    decreases |s|
  {
    if s == [] || !IsDigit(s[0]) then 0
    else
      var m := DigitRun(s[1..]);
      assert s[..1 + m] == [s[0]] + s[1..][..m];
      1 + m
  }

  lemma {:induction false} DigitRunOfDigits(d: string, rest: string)
    requires AllDigits(d)
    requires rest == [] || !IsDigit(rest[0])
    ensures DigitRun(d + rest) == |d|
    decreases |d|
  {
    if d != [] {
      assert (d + rest)[1..] == d[1..] + rest;
      DigitRunOfDigits(d[1..], rest);
    }
  }

  /** Reads an optionally negative decimal integer at the start of s and
      returns its value and the text after it. */
  function ReadInt(s: string): Option<(int, string)> {
    if 0 < |s| && s[0] == '-' then
      var n := DigitRun(s[1..]);
      if n == 0 then None else Some((0 - DigitsValue(s[1..][..n]) as int, s[1..][n..]))
    else
      var n := DigitRun(s);
      if n == 0 then None else Some((DigitsValue(s[..n]), s[n..]))
  }

  /** ReadInt undoes IntToString whenever the text that follows does not
      continue the digits. */
  lemma ReadIntOfIntToString(i: int, rest: string)
    requires rest == [] || !IsDigit(rest[0])
    ensures ReadInt(IntToString(i) + rest) == Some((i, rest))
  {
    var n: nat := if i < 0 then -i else i;
    var d := NatToString(n);
    DigitRunOfDigits(d, rest);
    DigitsValueOfNatToString(n);
    assert (d + rest)[..|d|] == d;
    assert (d + rest)[|d|..] == rest;
    if i < 0 {
      assert IntToString(i) + rest == "-" + (d + rest);
      assert ("-" + (d + rest))[1..] == d + rest;
    } else {
      assert IsDigit((d + rest)[0]);
    }
  }

  /** s with `prefix` removed from its front, if s starts with it. */
  function StripPrefix(prefix: string, s: string): (r: Option<string>)
    ensures r.Some? <==> prefix <= s
    ensures r.Some? ==> s == prefix + r.value
  {
    if prefix <= s then Some(s[|prefix|..]) else None
  }

  lemma StripPrefixOf(prefix: string, rest: string)
    ensures StripPrefix(prefix, prefix + rest) == Some(rest)
  {
    assert prefix <= prefix + rest;
    assert (prefix + rest)[|prefix|..] == rest;
  }

  /** Letters and digits: the characters of the enum names the model renders. */
  predicate IsNameChar(c: char) {
    IsDigit(c) || ('A' <= c <= 'Z') || ('a' <= c <= 'z')
  }

  predicate AllNameChars(s: string) {
    forall i | 0 <= i < |s| :: IsNameChar(s[i])
  }

  /** The leading run of name characters of s. */
  function NameRun(s: string): (w: string)
    ensures w <= s && AllNameChars(w)
    ensures |w| < |s| ==> !IsNameChar(s[|w|])
    decreases |s|
  {
    if s == [] || !IsNameChar(s[0]) then [] else [s[0]] + NameRun(s[1..])
  }

  lemma {:induction false} NameRunOf(w: string, rest: string)
    requires AllNameChars(w)
    requires rest == [] || !IsNameChar(rest[0])
    ensures NameRun(w + rest) == w
    decreases |w|
  {
    if w != [] {
      assert (w + rest)[1..] == w[1..] + rest;
      NameRunOf(w[1..], rest);
    }
  }

  /** Reads an integer and then the separator `sep` that must follow it. */
  function ReadIntThen(s: string, sep: string): Option<(int, string)> {
    var v :- ReadInt(s);
    var rest :- StripPrefix(sep, v.1);
    Some((v.0, rest))
  }

  lemma ReadIntThenOf(i: int, sep: string, rest: string)
    requires 0 < |sep| && !IsDigit(sep[0])
    ensures ReadIntThen(IntToString(i) + (sep + rest), sep) == Some((i, rest))
  {
    ReadIntOfIntToString(i, sep + rest);
    StripPrefixOf(sep, rest);
  }

  /** Reads a name and then the separator `sep` that must follow it. */
  function ReadNameThen(s: string, sep: string): Option<(string, string)> {
    var w := NameRun(s);
    var rest :- StripPrefix(sep, s[|w|..]);
    Some((w, rest))
  }

  lemma ReadNameThenOf(w: string, sep: string, rest: string)
    requires AllNameChars(w) && 0 < |sep| && !IsNameChar(sep[0])
    ensures ReadNameThen(w + (sep + rest), sep) == Some((w, rest))
  {
    NameRunOf(w, sep + rest);
    assert (w + (sep + rest))[|w|..] == sep + rest;
    StripPrefixOf(sep, rest);
  }
}
