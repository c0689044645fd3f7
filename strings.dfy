/** The Python string operations the catalog code relies on, on `seq<char>`:
    `str.find`, `str.rfind`, `str.split(sep)` and `sep.join` with a one-character
    separator, `str.count`, `str.strip(chars)`, `str.startswith`, `str.isalpha`,
    `str.lower`, and `int(...)` / `str(...)` on decimal integers. */
module Strings {
  import opened Wrappers

  predicate StartsWith(s: string, prefix: string) {
    |prefix| <= |s| && s[..|prefix|] == prefix
  }

  /** `s.find(c)`, reporting "not found" as `|s|` instead of -1. */
  function Find(s: string, c: char): (i: nat)
    ensures i <= |s|
    ensures i < |s| ==> s[i] == c
    ensures forall j :: 0 <= j < i ==> s[j] != c
    ensures i == |s| <==> c !in s
  {
    if |s| == 0 then 0 else if s[0] == c then 0 else 1 + Find(s[1..], c)
  }

  /** `s.rfind(c)`: the last index of `c`, or -1. */
  function RFind(s: string, c: char): (i: int)
    ensures -1 <= i < |s|
    ensures i >= 0 ==> s[i] == c
    ensures forall j :: i < j < |s| ==> s[j] != c
    ensures i == -1 <==> c !in s
  {
    if |s| == 0 then -1
    else if s[|s| - 1] == c then |s| - 1
    else
      assert forall j :: 0 <= j < |s| - 1 ==> s[..|s| - 1][j] == s[j];
      RFind(s[..|s| - 1], c)
  }

  /** Index of the first character of `s` that belongs to `cs`, or `|s|`. */
  function FindAny(s: string, cs: set<char>): (i: nat)
    ensures i <= |s|
    ensures i < |s| ==> s[i] in cs
    ensures forall j :: 0 <= j < i ==> s[j] !in cs
  {
    if |s| == 0 then 0 else if s[0] in cs then 0 else 1 + FindAny(s[1..], cs)
  }

  /** `s.count(c)` */
  function Count(s: string, c: char): nat {
    if |s| == 0 then 0 else (if s[0] == c then 1 else 0) + Count(s[1..], c)
  }

  /** `s.split(sep)` for a one-character separator: never empty, and no part
      contains the separator. */
  function Split(s: string, sep: char): (parts: seq<string>)
    ensures |parts| >= 1
    ensures forall i :: 0 <= i < |parts| ==> sep !in parts[i]
    decreases |s|
  {
    if |s| == 0 then [""]
    else
      var rest := Split(s[1..], sep);
      if s[0] == sep then [""] + rest else [[s[0]] + rest[0]] + rest[1..]
  }

  /** `sep.join(parts)` */
  function Join(parts: seq<string>, sep: char): string {
    if |parts| == 0 then ""
    else if |parts| == 1 then parts[0]
    else parts[0] + [sep] + Join(parts[1..], sep)
  }

  /** Joining the parts of a split gives the string back. */
  lemma {:induction false} JoinSplit(s: string, sep: char)
    ensures Join(Split(s, sep), sep) == s
    decreases |s|
  {
    if |s| > 0 {
      var rest := Split(s[1..], sep);
      JoinSplit(s[1..], sep);
      if s[0] == sep {
        assert Split(s, sep) == [""] + rest;
        assert ([""] + rest)[1..] == rest;
      } else {
        var parts := Split(s, sep);
        assert parts == [[s[0]] + rest[0]] + rest[1..];
        if |rest| == 1 {
          assert Join(parts, sep) == [s[0]] + rest[0];
        } else {
          assert parts[1..] == rest[1..];
          assert Join(rest, sep) == rest[0] + [sep] + Join(rest[1..], sep);
        }
      }
    }
  }

  /** A string without the separator splits into itself alone. */
  lemma {:induction false} SplitWithoutSeparator(s: string, sep: char)
    requires sep !in s
    ensures Split(s, sep) == [s]
    decreases |s|
  {
    if |s| > 0 {
      SplitWithoutSeparator(s[1..], sep);
      assert [s[0]] + s[1..] == s;
    }
  }

  /** Splitting `a + sep + b`, where `a` has no separator, gives `a` first. */
  lemma {:induction false} SplitAfterSeparator(a: string, sep: char, b: string)
    requires sep !in a
    ensures Split(a + [sep] + b, sep) == [a] + Split(b, sep)
    decreases |a|
  {
    if |a| == 0 {
      assert a + [sep] + b == [sep] + b;
      assert ([sep] + b)[1..] == b;
    } else {
      SplitAfterSeparator(a[1..], sep, b);
      assert (a + [sep] + b)[1..] == a[1..] + [sep] + b;
      assert [a[0]] + a[1..] == a;
    }
  }

  /** Splitting a join of separator-free parts gives the parts back. */
  lemma {:induction false} SplitJoin(parts: seq<string>, sep: char)
    requires |parts| >= 1
    requires forall i :: 0 <= i < |parts| ==> sep !in parts[i]
    ensures Split(Join(parts, sep), sep) == parts
    decreases |parts|
  {
    if |parts| == 1 {
      SplitWithoutSeparator(parts[0], sep);
    } else {
      SplitJoin(parts[1..], sep);
      SplitAfterSeparator(parts[0], sep, Join(parts[1..], sep));
      assert [parts[0]] + parts[1..] == parts;
    }
  }

  /** A split has one more part than there are separators. */
  lemma {:induction false} SplitCount(s: string, sep: char)
    ensures |Split(s, sep)| == Count(s, sep) + 1
    decreases |s|
  {
    if |s| > 0 {
      SplitCount(s[1..], sep);
    }
  }

  /** The first part of a split is everything before the first separator. */
  lemma {:induction false} SplitHead(s: string, sep: char)
    ensures Split(s, sep)[0] == s[..Find(s, sep)]
    decreases |s|
  {
    if |s| > 0 && s[0] != sep {
      SplitHead(s[1..], sep);
      assert s[..Find(s, sep)] == [s[0]] + s[1..][..Find(s[1..], sep)];
    }
  }

  /** How many leading characters of `s` belong to `cs`. */
  function LeadingIn(s: string, cs: set<char>): (n: nat)
    ensures n <= |s|
  {
    if |s| > 0 && s[0] in cs then 1 + LeadingIn(s[1..], cs) else 0
  }

  /** The leading run is as long as it can be: all of it is in `cs`, and the
      character after it is not. */
  lemma {:induction false} LeadingInRun(s: string, cs: set<char>)
    ensures forall k :: 0 <= k < LeadingIn(s, cs) ==> s[k] in cs
    ensures LeadingIn(s, cs) == |s| || s[LeadingIn(s, cs)] !in cs
    decreases |s|
  {
    if |s| > 0 && s[0] in cs {
      LeadingInRun(s[1..], cs);
      assert forall k :: 1 <= k < |s| ==> s[k] == s[1..][k - 1];
    }
  }

  /** How many trailing characters of `s` belong to `cs`. */
  function TrailingIn(s: string, cs: set<char>): (n: nat)
    ensures n <= |s|
  {
    if |s| > 0 && s[|s| - 1] in cs then 1 + TrailingIn(s[..|s| - 1], cs) else 0
  }

  /** The trailing run is as long as it can be: all of it is in `cs`, and the
      character before it is not. */
  lemma {:induction false} TrailingInRun(s: string, cs: set<char>)
    ensures forall k :: |s| - TrailingIn(s, cs) <= k < |s| ==> s[k] in cs
    ensures TrailingIn(s, cs) == |s| || s[|s| - TrailingIn(s, cs) - 1] !in cs
    decreases |s|
  {
    if |s| > 0 && s[|s| - 1] in cs {
      TrailingInRun(s[..|s| - 1], cs);
      assert forall k :: 0 <= k < |s| - 1 ==> s[k] == s[..|s| - 1][k];
    }
  }

  /** `s.lstrip(chars)`: drops the leading characters that belong to `cs`. */
  function LStrip(s: string, cs: set<char>): string {
    s[LeadingIn(s, cs)..]
  }

  /** `s.rstrip(chars)`: drops the trailing characters that belong to `cs`. */
  function RStrip(s: string, cs: set<char>): string {
    s[..|s| - TrailingIn(s, cs)]
  }

  /** `s.strip(chars)` */
  function Strip(s: string, cs: set<char>): string {
    LStrip(RStrip(s, cs), cs)
  }

  /** A string strips to nothing exactly when all its characters are stripped. */
  lemma StripEmpty(s: string, cs: set<char>)
    ensures Strip(s, cs) == "" <==> forall k :: 0 <= k < |s| ==> s[k] in cs
  {
    var r := RStrip(s, cs);
    LeadingInRun(r, cs);
    TrailingInRun(s, cs);
    if Strip(s, cs) == "" {
      assert forall k :: 0 <= k < |r| ==> r[k] in cs;
      forall k | 0 <= k < |s| ensures s[k] in cs {
        if k < |r| { assert s[k] == r[k]; }
      }
    } else {
      var l := Strip(s, cs);
      var k := |r| - |l|;
      assert l[0] == r[k] == s[k];
    }
  }

  /** The characters `str.isspace` accepts, which `str.strip()` and `int()`
      strip: the ASCII tab to CR, the four ASCII separators, space, NEL,
      no-break space, and the Unicode space and line separators. */
  const Whitespace: set<char> := {'\t', '\n', '\U{000B}', '\U{000C}', '\r',
    '\U{001C}', '\U{001D}', '\U{001E}', '\U{001F}', ' ', '\U{0085}', '\U{00A0}', '\U{1680}',
    '\U{2000}', '\U{2001}', '\U{2002}', '\U{2003}', '\U{2004}', '\U{2005}', '\U{2006}',
    '\U{2007}', '\U{2008}', '\U{2009}', '\U{200A}', '\U{2028}', '\U{2029}', '\U{202F}',
    '\U{205F}', '\U{3000}'}

  predicate IsAsciiLetter(ch: char) {
    'a' <= ch <= 'z' || 'A' <= ch <= 'Z'
  }

  predicate IsDigit(ch: char) {
    '0' <= ch <= '9'
  }

  /** `s.isalpha()` restricted to ASCII letters: false for the empty string. */
  predicate IsAlpha(s: string) {
    |s| > 0 && forall k :: 0 <= k < |s| ==> IsAsciiLetter(s[k])
  }

  function LowerChar(ch: char): char {
    if 'A' <= ch <= 'Z' then (ch as int + 32) as char else ch
  }

  /** `s.lower()` on ASCII letters. */
  function Lower(s: string): (r: string)
    ensures |r| == |s|
    ensures forall k :: 0 <= k < |s| ==> r[k] == LowerChar(s[k])
  {
    if |s| == 0 then "" else [LowerChar(s[0])] + Lower(s[1..])
  }

  predicate AllDigits(s: string) {
    forall k :: 0 <= k < |s| ==> IsDigit(s[k])
  }

  /** The value of a decimal digit, 0 for any other character. */
  function DigitValue(ch: char): nat {
    if IsDigit(ch) then ch as int - '0' as int else 0
  }

  /** The decimal value of a digit string (read only where it is all digits). */
  function DigitsValue(s: string): nat {
    if |s| == 0 then 0
    else 10 * DigitsValue(s[..|s| - 1]) + DigitValue(s[|s| - 1])
  }

  /** The digits of an `int()` literal: a digit first and last, and '_'
      only singly between two digits. */
  predicate DigitRun(s: string) {
    && |s| > 0 && IsDigit(s[0]) && IsDigit(s[|s| - 1])
    && (forall k :: 0 <= k < |s| ==> IsDigit(s[k]) || s[k] == '_')
    && (forall k :: 0 < k < |s| && s[k] == '_' ==> s[k - 1] != '_')
  }

  /** `s.replace(c, "")` */
  function Without(s: string, c: char): (r: string)
    ensures c !in r && |r| <= |s|
    ensures forall ch :: ch != c ==> (ch in r <==> ch in s)
  {
    if |s| == 0 then "" else (if s[0] == c then "" else [s[0]]) + Without(s[1..], c)
  }

  /** Text without the character is left as it is. */
  lemma {:induction false} WithoutAbsent(s: string, c: char)
    requires c !in s
    ensures Without(s, c) == s
  {
    if |s| > 0 {
      WithoutAbsent(s[1..], c);
      assert [s[0]] + s[1..] == s;
    }
  }

  /** `int(s)` on a decimal literal: surrounding whitespace, an optional sign,
      then a run of digits with single underscores between them; anything
      else is a ValueError (None here). */
  function ParseInt(s: string): Option<int> {
    var t := Strip(s, Whitespace);
    var negative := |t| > 0 && t[0] == '-';
    var body := if |t| > 0 && (t[0] == '-' || t[0] == '+') then t[1..] else t;
    if DigitRun(body) then
      var v: int := DigitsValue(Without(body, '_'));
      Some(if negative then -v else v)
    else None
  }

  /** A digit string is a run of digits, and its underscores-removed form is
      itself. */
  lemma DigitsAreRun(s: string)
    requires |s| > 0 && AllDigits(s)
    ensures DigitRun(s) && Without(s, '_') == s
  {
    assert '_' !in s;
    WithoutAbsent(s, '_');
  }

  /** `int("1_000") == 1000`; `int("1__0")` and `int("_1")` are ValueErrors. */
  lemma ParseIntUnderscores()
    ensures ParseInt("1_000") == Some(1000)
    ensures ParseInt("1__0") == None && ParseInt("_1") == None && ParseInt("1_") == None
  {
    StripKeeps("1_000", Whitespace);
    assert Without("1_000", '_') == "1000";
    assert DigitsValue("1000") == 1000 by {
      assert "1000"[..3] == "100" && "100"[..2] == "10" && "10"[..1] == "1" && "1"[..0] == "";
    }
    StripKeeps("1__0", Whitespace);
    assert "1__0"[2] == '_';
    StripKeeps("_1", Whitespace);
    StripKeeps("1_", Whitespace);
  }

  function DigitChar(d: nat): char
    requires d < 10
  {
    ('0' as int + d) as char
  }

  /** `str(n)` for a natural number. */
  function NatToString(n: nat): (s: string)
    ensures |s| > 0 && AllDigits(s)
    ensures s[0] != ' ' && s[|s| - 1] != ' '
  {
    if n < 10 then [DigitChar(n)] else NatToString(n / 10) + [DigitChar(n % 10)]
  }

  /** `str(i)` for an integer. */
  function IntToString(i: int): string {
    if i < 0 then "-" + NatToString(-i) else NatToString(i)
  }

  lemma {:induction false} DigitsValueOfNatToString(n: nat)
    ensures DigitsValue(NatToString(n)) == n
  {
    if n >= 10 {
      DigitsValueOfNatToString(n / 10);
      var s := NatToString(n);
      assert s[..|s| - 1] == NatToString(n / 10);
    }
  }

  /** A string whose first and last characters are not stripped strips to itself. */
  lemma StripKeeps(s: string, cs: set<char>)
    requires |s| > 0 && s[0] !in cs && s[|s| - 1] !in cs
    ensures Strip(s, cs) == s
  {
    assert RStrip(s, cs) == s;
  }

  /** `int(str(i)) == i` */
  lemma {:induction false} ParseIntToString(i: int)
    ensures ParseInt(IntToString(i)) == Some(i)
  {
    if i < 0 {
      var n: nat := -i;
      assert IntToString(i) == "-" + NatToString(n);
      ParseNegative(n);
    } else {
      var n: nat := i;
      assert IntToString(i) == NatToString(n);
      ParseNatString(n);
    }
  }

  lemma {:induction false} ParseNatString(n: nat)
    ensures ParseInt(NatToString(n)) == Some(n)
  {
    var d := NatToString(n);
    assert IsDigit(d[0]) && IsDigit(d[|d| - 1]);
    StripKeeps(d, Whitespace);
    assert d[0] != '-' && d[0] != '+';
    DigitsAreRun(d);
    DigitsValueOfNatToString(n);
  }

  lemma {:induction false} ParseNegative(n: nat)
    requires n > 0
    ensures ParseInt("-" + NatToString(n)) == Some(-(n as int))
  {
    var d := NatToString(n);
    var s := "-" + d;
    assert s[0] == '-' && s[|s| - 1] == d[|d| - 1];
    assert d[|d| - 1] !in Whitespace by { assert IsDigit(d[|d| - 1]); }
    StripKeeps(s, Whitespace);
    assert s[1..] == d;
    DigitsAreRun(d);
    DigitsValueOfNatToString(n);
  }
}
