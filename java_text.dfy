/**
  The few Java library string operations the fixture code depends on:
  String.format with one argument, String.indexOf, Apache Commons
  StringUtils.substringAfter, and the decimal rendering of an int that
  string concatenation performs.
 */
module JavaText {
  import opened Wrappers

  // ---------------------------------------------------------------------
  // String.format(template, arg)
  // ---------------------------------------------------------------------

  /** The two ways String.format refuses a template when given one argument. */
  datatype FormatError =
    | UnknownFormatConversion  // a '%' not followed by a modelled conversion
    | MissingFormatArgument    // more than one %s for the single argument

  predicate NoPercent(s: string) {
    '%' !in s
  }

  /** The number of %s conversions in a template; Java parses the whole
      template before it formats, so a bad conversion anywhere wins. */
  function Conversions(t: string): Result<nat, FormatError>
    decreases |t|
  {
    if t == [] then Ok(0)
    else if t[0] != '%' then Conversions(t[1..])
    else if |t| >= 2 && t[1] == '%' then Conversions(t[2..])
    else if |t| >= 2 && t[1] == 's' then
      match Conversions(t[2..])
      case Ok(n) => Ok(n + 1)
      case Err(e) => Err(e)
    else Err(UnknownFormatConversion)
  }

  /** The template with every %s replaced by arg and every %% by %. */
  function Expand(t: string, arg: string): string
    decreases |t|
  {
    if t == [] then []
    else if t[0] == '%' && |t| >= 2 && t[1] == '%' then "%" + Expand(t[2..], arg)
    else if t[0] == '%' && |t| >= 2 && t[1] == 's' then arg + Expand(t[2..], arg)
    else [t[0]] + Expand(t[1..], arg)
  }

  /** String.format(t, arg). */
  function Format(t: string, arg: string): Result<string, FormatError> {
    match Conversions(t)
    case Err(e) => Err(e)
    case Ok(n) => if n > 1 then Err(MissingFormatArgument) else Ok(Expand(t, arg))
  }

  /** Text without '%' holds no conversion. */
  lemma {:induction false} ConversionsSkipPlain(a: string, rest: string)
    requires NoPercent(a)
    ensures Conversions(a + rest) == Conversions(rest)
    decreases |a|
  {
    if a == [] {
      assert a + rest == rest;
    } else {
      var t := a + rest;
      assert t[0] == a[0] && a[0] in a;
      assert t[1..] == a[1..] + rest;
      ConversionsSkipPlain(a[1..], rest);
    }
  }

  /** Text without '%' is copied as it is. */
  lemma {:induction false} ExpandSkipPlain(a: string, rest: string, arg: string)
    requires NoPercent(a)
    ensures Expand(a + rest, arg) == a + Expand(rest, arg)
    decreases |a|
  {
    if a == [] {
      assert a + rest == rest;
    } else {
      var t := a + rest;
      assert t[0] == a[0] && a[0] in a;
      assert t[1..] == a[1..] + rest;
      ExpandSkipPlain(a[1..], rest, arg);
      assert a == [a[0]] + a[1..];
    }
  }

  /** Text without '%' passes through formatting untouched. */
  lemma PlainPrefix(a: string, rest: string, arg: string)
    requires NoPercent(a)
    ensures Conversions(a + rest) == Conversions(rest)
    ensures Expand(a + rest, arg) == a + Expand(rest, arg)
  {
    ConversionsSkipPlain(a, rest);
    ExpandSkipPlain(a, rest, arg);
  }

  /** A template without '%' formats to itself. */
  lemma FormatPlain(t: string, arg: string)
    requires NoPercent(t)
    ensures Format(t, arg) == Ok(t)
  {
    PlainPrefix(t, [], arg);
    assert t + [] == t;
  }

  /** A template with exactly one %s and no other '%' formats to the
      template with the argument in place of the %s. */
  lemma FormatOneSlot(a: string, b: string, arg: string)
    requires NoPercent(a) && NoPercent(b)
    ensures Format(a + "%s" + b, arg) == Ok(a + arg + b)
  {
    assert a + "%s" + b == a + ("%s" + b);
    PlainPrefix(a, "%s" + b, arg);
    var t := "%s" + b;
    assert t[0] == '%' && t[1] == 's' && t[2..] == b;
    PlainPrefix(b, [], arg);
    assert b + [] == b;
    assert Conversions(t) == Ok(1);
    assert Expand(t, arg) == arg + b;
    assert Conversions(a + t) == Ok(1);
    assert Expand(a + t, arg) == a + (arg + b) == a + arg + b;
  }

  // ---------------------------------------------------------------------
  // indexOf and StringUtils.substringAfter
  // ---------------------------------------------------------------------

  predicate OccursAt(s: string, pat: string, i: int) {
    0 <= i && i + |pat| <= |s| && s[i..i + |pat|] == pat
  }

  lemma OccursShift(s: string, pat: string)
    requires s != []
    ensures forall j {:trigger OccursAt(s, pat, j)} :: 1 <= j ==> (OccursAt(s, pat, j) <==> OccursAt(s[1..], pat, j - 1))
  {
  }

  /** s.indexOf(pat), with None standing for -1: the first position at
      which pat occurs. */
  function IndexOf(s: string, pat: string): (r: Option<nat>)
    ensures r.Some? ==> OccursAt(s, pat, r.value)
    ensures r.Some? ==> forall j :: 0 <= j < r.value ==> !OccursAt(s, pat, j)
    ensures r.None? ==> forall j :: !OccursAt(s, pat, j)
    decreases |s|
  {
    if |s| < |pat| then None
    else if s[..|pat|] == pat then Some(0)
    else
      OccursShift(s, pat);
      match IndexOf(s[1..], pat)
      case None => None
      case Some(i) => Some(i + 1)
  }

  /** StringUtils.substringAfter(s, sep) for non-null arguments: the text
      after the first occurrence of sep, and "" when sep does not occur. */
  function SubstringAfter(s: string, sep: string): (r: string)
    ensures (forall j :: !OccursAt(s, sep, j)) ==> r == ""
    ensures forall i :: OccursAt(s, sep, i) && (forall j :: 0 <= j < i ==> !OccursAt(s, sep, j))
                        ==> r == s[i + |sep|..]
  {
    if |s| == 0 then s
    else
      match IndexOf(s, sep)
      case None => ""
      case Some(i) => s[i + |sep|..]
  }

  // ---------------------------------------------------------------------
  // Decimal text of an int, as "..." + n renders it
  // ---------------------------------------------------------------------

  predicate IsDigit(c: char) {
    '0' <= c <= '9'
  }

  function DigitChar(d: nat): (c: char)
    requires d < 10
  {
    ('0' as int + d) as char
  }

  function DigitValue(c: char): nat
    requires IsDigit(c)
  {
    c as int - '0' as int
  }

  function NatToString(n: nat): (r: string)
    ensures r != [] && forall i :: 0 <= i < |r| ==> IsDigit(r[i])
    decreases n
  {
    if n < 10 then [DigitChar(n)] else NatToString(n / 10) + [DigitChar(n % 10)]
  }

  /** Integer.toString(n): an optional minus sign and the decimal digits. */
  function IntToString(n: int): string {
    if n < 0 then "-" + NatToString(-n) else NatToString(n)
  }

  /** Reads a non-empty run of decimal digits. */
  function ParseNat(s: string): Option<nat>
    decreases |s|
  {
    if s == [] || !IsDigit(s[|s| - 1]) then None
    else if |s| == 1 then Some(DigitValue(s[0]))
    else
      match ParseNat(s[..|s| - 1])
      case None => None
      case Some(m) => Some(10 * m + DigitValue(s[|s| - 1]))
  }

  /** Reads an optionally negative decimal integer. */
  function ParseInt(s: string): Option<int> {
    if |s| > 0 && s[0] == '-' then
      match ParseNat(s[1..])
      case None => None
      case Some(m) => Some(-(m as int))
    else ParseNat(s)
  }

  lemma {:induction false} NatRoundTrip(n: nat)
    ensures ParseNat(NatToString(n)) == Some(n)
    decreases n
  {
    if n >= 10 {
      var s := NatToString(n);
      assert s[..|s| - 1] == NatToString(n / 10);
      NatRoundTrip(n / 10);
    }
  }

  /** The decimal text of an int reads back as the same int. */
  lemma IntRoundTrip(n: int)
    ensures ParseInt(IntToString(n)) == Some(n)
  {
    if n < 0 {
      var d := NatToString(-n);
      var t := "-" + d;
      assert t[0] == '-' && t[1..] == d;
      NatRoundTrip(-n);
    } else {
      assert IsDigit(NatToString(n)[0]);
      NatRoundTrip(n);
    }
  }
}
