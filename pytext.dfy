/**
 * The Python string built-ins the sensor relies on: `str.isspace`, `str.strip`,
 * `int(str)`, `str(int)` and `str.split(".", 1)`, stated over `seq<char>`.
 */
module PyText {
  import opened Wrappers

  /** `c.isspace()`: the characters Python treats as whitespace (bidirectional
      classes WS, B and S, and the space separators). */
  predicate IsSpace(c: char) {
    c == ' ' || ('\t' <= c <= '\r') || ('\U{1c}' <= c <= '\U{1f}') || c == '\U{85}'
    || c == '\U{a0}' || c == '\U{1680}' || ('\U{2000}' <= c <= '\U{200a}')
    || c == '\U{2028}' || c == '\U{2029}' || c == '\U{202f}' || c == '\U{205f}'
    || c == '\U{3000}'
  }

  /** The four information separators U+001C..U+001F: whitespace to `str.isspace`,
      but not to `int()`, which skips only ASCII " \t\n\v\f\r" and non-ASCII whitespace. */
  predicate IsInfoSeparator(c: char) {
    '\U{1c}' <= c <= '\U{1f}'
  }

  /** The whitespace `int()` skips around a numeral. */
  predicate IsIntSpace(c: char) {
    IsSpace(c) && !IsInfoSeparator(c)
  }

  /** Every character of `s` is whitespace (the empty string included). */
  predicate IsBlank(s: string) {
    forall i :: 0 <= i < |s| ==> IsSpace(s[i])
  }

  /** The number of whitespace characters `s` starts with. */
  function LeadingBlanks(s: string): (k: nat)
    ensures k <= |s|
    ensures forall i :: 0 <= i < k ==> IsSpace(s[i])
    ensures k == |s| || !IsSpace(s[k])
  {
    if s == [] || !IsSpace(s[0]) then 0 else 1 + LeadingBlanks(s[1..])
  }

  /** The number of whitespace characters `s` ends with. */
  function TrailingBlanks(s: string): (k: nat)
    ensures k <= |s|
    ensures forall i :: |s| - k <= i < |s| ==> IsSpace(s[i])
    ensures k == |s| || !IsSpace(s[|s| - k - 1])
  {
    if s == [] || !IsSpace(s[|s| - 1]) then 0 else 1 + TrailingBlanks(s[..|s| - 1])
  }

  /** `s.strip()`: `s` without its leading and trailing whitespace. */
  function Strip(s: string): string {
    var t := s[LeadingBlanks(s)..];
    t[..|t| - TrailingBlanks(t)]
  }

  /** The leading blanks are exactly the run of whitespace before the first other character. */
  lemma {:induction false} LeadingBlanksUnique(s: string, k: nat)
    requires k <= |s| && (forall i :: 0 <= i < k ==> IsSpace(s[i])) && (k == |s| || !IsSpace(s[k]))
    ensures LeadingBlanks(s) == k
    decreases k
  {
    if k > 0 {
      assert IsSpace(s[0]);
      LeadingBlanksUnique(s[1..], k - 1);
    }
  }

  lemma {:induction false} TrailingBlanksUnique(s: string, k: nat)
    requires k <= |s| && (forall i :: |s| - k <= i < |s| ==> IsSpace(s[i]))
    requires k == |s| || !IsSpace(s[|s| - k - 1])
    ensures TrailingBlanks(s) == k
    decreases k
  {
    if k > 0 {
      assert IsSpace(s[|s| - 1]);
      TrailingBlanksUnique(s[..|s| - 1], k - 1);
    }
  }

  /** `not s.strip()` holds exactly of the blank strings. */
  lemma StripEmptyIffBlank(s: string)
    ensures Strip(s) == [] <==> IsBlank(s)
  {
    var a := LeadingBlanks(s);
    var t := s[a..];
    var b := TrailingBlanks(t);
    assert forall j :: 0 <= j < |t| ==> t[j] == s[a + j];
    if b == |t| {
      assert a == |s|;
    }
  }

  /** `strip` leaves a text whose ends are not blank as it is. */
  lemma StripUnpadded(s: string)
    requires s != [] && !IsSpace(s[0]) && !IsSpace(s[|s| - 1])
    ensures Strip(s) == s
  {
    assert LeadingBlanks(s) == 0;
    assert s[0..] == s;
    assert TrailingBlanks(s) == 0;
    assert s[..|s|] == s;
  }

  /** Surrounding whitespace is exactly what `strip` removes. */
  lemma StripPadded(pre: string, core: string, post: string)
    requires IsBlank(pre) && IsBlank(post)
    requires core != [] && !IsSpace(core[0]) && !IsSpace(core[|core| - 1])
    ensures Strip(pre + core + post) == core
  {
    var s := pre + core + post;
    assert forall i :: 0 <= i < |pre| ==> s[i] == pre[i];
    assert s[|pre|] == core[0];
    LeadingBlanksUnique(s, |pre|);
    var t := s[|pre|..];
    assert t == core + post;
    assert forall i :: 0 <= i < |post| ==> t[|core| + i] == post[i];
    assert t[|t| - |post| - 1] == core[|core| - 1];
    TrailingBlanksUnique(t, |post|);
    assert t[..|t| - |post|] == core;
  }

  predicate IsDigit(c: char) {
    '0' <= c <= '9'
  }

  function DigitValue(c: char): (d: nat)
    requires IsDigit(c)
    ensures d < 10
  {
    c as int - '0' as int
  }

  function DigitChar(d: nat): (c: char)
    requires d < 10
    ensures IsDigit(c) && DigitValue(c) == d
  {
    ('0' as int + d) as char
  }

  /** The body of a base-10 integer literal as `int()` accepts it: ASCII digits,
      with single underscores allowed only between two digits. */
  predicate IsNumeral(d: string) {
    |d| > 0 &&
    forall i :: 0 <= i < |d| ==> IsDigit(d[i]) || (d[i] == '_' && 0 < i < |d| - 1 && IsDigit(d[i + 1]))
  }

  /** The value of a numeral; underscores carry no value. */
  function NumeralValue(d: string): nat {
    if d == [] then 0
    else if IsDigit(d[|d| - 1]) then 10 * NumeralValue(d[..|d| - 1]) + DigitValue(d[|d| - 1])
    else NumeralValue(d[..|d| - 1])
  }

  /** The most decimal digits `int()` converts: Python's default for
      `sys.set_int_max_str_digits`. */
  const MaxStrDigits: nat := 4300

  /** The number of digits in `d`; underscores do not count, leading zeros do. */
  function DigitCount(d: string): (n: nat)
    ensures n <= |d|
  {
    if d == [] then 0 else (if IsDigit(d[0]) then 1 else 0) + DigitCount(d[1..])
  }

  lemma {:induction false} AllDigitsCount(d: string)
    requires forall i :: 0 <= i < |d| ==> IsDigit(d[i])
    ensures DigitCount(d) == |d|
    decreases |d|
  {
    if d != [] {
      AllDigitsCount(d[1..]);
    }
  }

  /** `int(s)` for a string `s`: surrounding whitespace is ignored, an optional
      sign precedes the numeral; anything else raises `ValueError` (`None`). An
      information separator is neither skipped nor part of a numeral, so one
      anywhere in `s` makes `int()` raise. */
  function ParseInt(s: string): Option<int> {
    if exists i :: 0 <= i < |s| && IsInfoSeparator(s[i]) then None
    else ParseSigned(Strip(s))
  }

  /** The value of an optionally signed numeral of at most `MaxStrDigits` digits,
      or `None`. */
  function ParseSigned(t: string): Option<int> {
    if |t| > 0 && (t[0] == '-' || t[0] == '+') then
      if IsNumeral(t[1..]) && DigitCount(t[1..]) <= MaxStrDigits then
        var v: int := NumeralValue(t[1..]);
        Some(if t[0] == '-' then -v else v)
      else None
    else if IsNumeral(t) && DigitCount(t) <= MaxStrDigits then Some(NumeralValue(t))
    else None
  }

  /** The decimal digits of `n`, most significant first, without leading zeros. */
  function Digits(n: nat): (s: string)
    decreases n
  {
    if n < 10 then [DigitChar(n)] else Digits(n / 10) + [DigitChar(n % 10)]
  }

  /** `str(n)` for an integer `n`. */
  function IntToText(n: int): string {
    if n < 0 then "-" + Digits(-n) else Digits(n)
  }

  lemma {:induction false} DigitsAreNumeral(n: nat)
    ensures |Digits(n)| > 0
    ensures forall i :: 0 <= i < |Digits(n)| ==> IsDigit(Digits(n)[i])
    ensures IsNumeral(Digits(n)) && NumeralValue(Digits(n)) == n
    decreases n
  {
    if n >= 10 {
      DigitsAreNumeral(n / 10);
      var p := Digits(n / 10);
      assert Digits(n)[..|Digits(n)| - 1] == p;
    }
  }

  /** The text of an integer: no whitespace at either end, an optional minus
      sign, then the numeral of its magnitude. */
  lemma IntTextShape(n: int)
    ensures var t := IntToText(n);
      t != [] && !IsSpace(t[0]) && !IsSpace(t[|t| - 1]) && t[0] != '+' &&
      (n < 0 ==> t[0] == '-' && IsNumeral(t[1..]) && NumeralValue(t[1..]) == -n) &&
      (n >= 0 ==> t[0] != '-' && IsNumeral(t) && NumeralValue(t) == n)
  {
    var m := if n < 0 then -n else n;
    DigitsAreNumeral(m);
    var d := Digits(m);
    assert IsDigit(d[0]) && IsDigit(d[|d| - 1]);
    if n < 0 {
      assert IntToText(n)[1..] == d;
    }
  }

  /** The text of an integer holds no information separator. */
  lemma IntTextHasNoSeparator(n: int)
    ensures forall i :: 0 <= i < |IntToText(n)| ==> !IsInfoSeparator(IntToText(n)[i])
  {
    DigitsAreNumeral(if n < 0 then -n else n);
    if n < 0 {
      assert forall i :: 0 < i < |IntToText(n)| ==> IntToText(n)[i] == Digits(-n)[i - 1];
    }
  }

  /** A concatenation holds an information separator only where one of its parts does. */
  lemma NoSeparatorConcat(pre: string, t: string, post: string)
    requires forall i :: 0 <= i < |pre| ==> IsIntSpace(pre[i])
    requires forall i :: 0 <= i < |t| ==> !IsInfoSeparator(t[i])
    requires forall i :: 0 <= i < |post| ==> IsIntSpace(post[i])
    ensures forall i :: 0 <= i < |pre + t + post| ==> !IsInfoSeparator((pre + t + post)[i])
  {
    var s := pre + t + post;
    forall i | 0 <= i < |s|
      ensures !IsInfoSeparator(s[i])
    {
      if i < |pre| {
        assert s[i] == pre[i];
      } else if i < |pre| + |t| {
        assert s[i] == t[i - |pre|];
      } else {
        assert s[i] == post[i - |pre| - |t|];
      }
    }
  }

  /** The text of an integer reads back as that integer when `int()` accepts its
      digit count. */
  lemma ParseSignedIntText(n: int)
    requires |Digits(if n < 0 then -n else n)| <= MaxStrDigits
    ensures ParseSigned(IntToText(n)) == Some(n)
  {
    var t := IntToText(n);
    var m := if n < 0 then -n else n;
    IntTextShape(n);
    DigitsAreNumeral(m);
    AllDigitsCount(Digits(m));
    if n < 0 {
      assert t[1..] == Digits(m);
    }
  }

  /** `int(str(n)) == n`, also with whitespace that `int()` skips around the text,
      for every `n` whose digits `str()` and `int()` accept. */
  lemma ParseIntRoundTrip(n: int, pre: string, post: string)
    requires |Digits(if n < 0 then -n else n)| <= MaxStrDigits
    requires forall i :: 0 <= i < |pre| ==> IsIntSpace(pre[i])
    requires forall i :: 0 <= i < |post| ==> IsIntSpace(post[i])
    ensures ParseInt(pre + IntToText(n) + post) == Some(n)
  {
    var t := IntToText(n);
    var s := pre + t + post;
    IntTextHasNoSeparator(n);
    NoSeparatorConcat(pre, t, post);
    ParseIntWithoutSeparator(s);
    assert Strip(s) == t by {
      IntTextShape(n);
      StripPadded(pre, t, post);
    }
    ParseSignedIntText(n);
  }

  /** Without an information separator, `int()` reads the stripped text. */
  lemma ParseIntWithoutSeparator(s: string)
    requires forall i :: 0 <= i < |s| ==> !IsInfoSeparator(s[i])
    ensures ParseInt(s) == ParseSigned(Strip(s))
  {
  }

  /** An unsigned numeral is read as its value up to `MaxStrDigits` digits. */
  lemma ParseUnsigned(d: string)
    requires IsNumeral(d) && d[0] != '-' && d[0] != '+'
    ensures ParseSigned(d) == if DigitCount(d) <= MaxStrDigits then Some(NumeralValue(d)) else None
  {
  }

  /** A plain run of digits is read as its value when it has at most
      `MaxStrDigits` digits, and refused otherwise. */
  lemma PlainNumeralParse(s: string)
    requires s != [] && forall i :: 0 <= i < |s| ==> IsDigit(s[i])
    ensures ParseInt(s) == if |s| <= MaxStrDigits then Some(NumeralValue(s)) else None
  {
    StripUnpadded(s);
    ParseIntWithoutSeparator(s);
    ParseUnsigned(s);
    AllDigitsCount(s);
  }

  /** `s.split(".", 1)` unpacked into two names: the text before the first dot and
      the rest, or `None` (a `ValueError`) when `s` has no dot. */
  function SplitAtFirstDot(s: string): (r: Option<(string, string)>)
    ensures r.None? <==> '.' !in s
    ensures r.Some? ==> '.' !in r.value.0 && r.value.0 + "." + r.value.1 == s
  {
    if s == [] then None
    else if s[0] == '.' then Some(([], s[1..]))
    else
      match SplitAtFirstDot(s[1..])
      case None => None
      case Some((domain, rest)) => Some(([s[0]] + domain, rest))
  }

  /** Splitting undoes joining with a dot when the first part has no dot. */
  lemma {:induction false} SplitJoinRoundTrip(domain: string, service: string)
    requires '.' !in domain
    ensures SplitAtFirstDot(domain + "." + service) == Some((domain, service))
    decreases |domain|
  {
    var s := domain + "." + service;
    if domain == [] {
      assert s[0] == '.' && s[1..] == service;
    } else {
      assert s[0] == domain[0] != '.';
      assert s[1..] == domain[1..] + "." + service;
      SplitJoinRoundTrip(domain[1..], service);
      assert [domain[0]] + domain[1..] == domain;
    }
  }
}
