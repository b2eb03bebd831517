/** The parts of Python's string handling that the modelled code relies on:
    decimal formatting (`"{0:d}"`, `"{0:02d}"`), `int(...)` on decimal text,
    `sep.join(...)`, `str.splitlines()`, `str.lower()` and the ordering that
    `list.sort()` applies to strings. */
module Text {
  import opened Wrappers

  // ---------------------------------------------------------------------
  // Decimal digits

  /** An ASCII decimal digit. Python's `int()` and the `\d` of a `str`
      regular expression also accept the other Unicode decimal digits; the
      model reads ASCII digits only. */
  predicate IsDigit(c: char) { '0' <= c <= '9' }

  predicate AllDigits(s: string) { forall i | 0 <= i < |s| :: IsDigit(s[i]) }

  function DigitChar(d: nat): (c: char)
    requires d < 10
    ensures IsDigit(c)
  {
    (48 + d) as char
  }

  function DigitValue(c: char): nat
    requires IsDigit(c)
  {
    (c as int - 48) as nat
  }

  /** `"{0:d}".format(n)` for a non-negative integer. */
  function NatToString(n: nat): (s: string)
    ensures |s| > 0 && AllDigits(s)
  {
    if n < 10 then [DigitChar(n)] else NatToString(n / 10) + [DigitChar(n % 10)]
  }

  /** The value of a string of decimal digits. */
  function DecimalValue(s: string): nat
    requires AllDigits(s)
  {
    if s == [] then 0 else DecimalValue(s[..|s| - 1]) * 10 + DigitValue(s[|s| - 1])
  }

  /** Formatting and reading back decimal text are inverse. */
  lemma {:induction false} DecimalRoundTrip(n: nat)
    ensures DecimalValue(NatToString(n)) == n
  {
    var s := NatToString(n);
    if n >= 10 {
      DecimalRoundTrip(n / 10);
      assert s[..|s| - 1] == NatToString(n / 10);
    }
  }

  /** `"{0:d}"` is injective, so distinct numbers give distinct keys. */
  lemma NatToStringInjective(m: nat, n: nat)
    requires NatToString(m) == NatToString(n)
    ensures m == n
  {
    DecimalRoundTrip(m);
    DecimalRoundTrip(n);
  }

  /** The number of digits `"{0:d}"` writes. */
  lemma {:induction false} NatToStringLength(n: nat)
    ensures n < 10 ==> |NatToString(n)| == 1
    ensures 10 <= n < 100 ==> |NatToString(n)| == 2
    ensures 100 <= n < 1000 ==> |NatToString(n)| == 3
    ensures n >= 1000 ==> |NatToString(n)| > 3
  {
    if n >= 10 {
      NatToStringLength(n / 10);
    }
  }

  /** `"{0:02d}".format(n)`: at least two digits, padded with a leading zero. */
  function ZeroPad2(n: nat): (s: string)
    ensures AllDigits(s) && |s| >= 2
    ensures DecimalValue(s) == n
    ensures n < 10 ==> s == ['0', DigitChar(n)]
    ensures n >= 10 ==> s == NatToString(n)
  {
    DecimalRoundTrip(n);
    NatToStringLength(n);
    if n < 10 then
      var s := ['0', DigitChar(n)];
      assert s[..1] == ['0'];
      s
    else NatToString(n)
  }

  /** Python's `int(s)` on text made of an optional sign and ASCII digits,
      which is the text the modelled code writes; any other text is
      `ValueError` here. Python's `int()` also strips surrounding whitespace,
      allows single underscores between digits and reads every Unicode
      decimal digit, which the model does not. */
  function ParseInt(s: string): (r: Result<int>)
    ensures r.Ok? ==> |s| > 0
  {
    var negative := |s| > 0 && s[0] == '-';
    var body := if |s| > 0 && (s[0] == '+' || s[0] == '-') then s[1..] else s;
    if |body| > 0 && AllDigits(body) then
      Ok(if negative then -(DecimalValue(body) as int) else DecimalValue(body) as int)
    else
      Err(ValueError("invalid literal for int()"))
  }

  /** What `"{0:d}"` writes, `int()` reads back. */
  lemma ParseFormatted(n: nat)
    ensures ParseInt(NatToString(n)) == Ok(n)
  {
    DecimalRoundTrip(n);
  }

  // ---------------------------------------------------------------------
  // Joining and splitting

  /** `sep.join(parts)`. */
  function Join(sep: string, parts: seq<string>): string
  {
    if |parts| == 0 then ""
    else if |parts| == 1 then parts[0]
    else parts[0] + sep + Join(sep, parts[1..])
  }

  /** The characters at which `str.splitlines()` ends a line. */
  const LineBoundaries: set<char> :=
    {'\n', '\r', '\U{000B}', '\U{000C}', '\U{001C}', '\U{001D}', '\U{001E}', '\U{0085}', '\U{2028}', '\U{2029}'}

  predicate IsLineBoundary(c: char)
  {
    c in LineBoundaries
  }

  /** Number of characters before the first line boundary of `s`. */
  function LineLength(s: string): (n: nat)
    ensures n <= |s|
    ensures n < |s| ==> IsLineBoundary(s[n])
  {
    if s == [] || IsLineBoundary(s[0]) then 0 else 1 + LineLength(s[1..])
  }

  /** No line boundary comes before the one `LineLength` stops at. */
  lemma {:induction false} LineHasNoBoundary(s: string)
    ensures forall i | 0 <= i < LineLength(s) :: !IsLineBoundary(s[i])
  {
    if s != [] && !IsLineBoundary(s[0]) {
      LineHasNoBoundary(s[1..]);
      forall i | 0 < i < LineLength(s) ensures !IsLineBoundary(s[i]) {
        assert s[i] == s[1..][i - 1];
      }
    }
  }

  /** `str.splitlines()`: the lines of `s` without their terminators; "\r\n"
      ends a single line, and a final terminator does not open an empty line. */
  function SplitLines(s: string): seq<string>
    decreases |s|
  {
    if s == [] then []
    else
      var n := LineLength(s);
      if n == |s| then [s]
      else
        var skip := if s[n] == '\r' && n + 1 < |s| && s[n + 1] == '\n' then 2 else 1;
        [s[..n]] + SplitLines(s[n + skip..])
  }

  /** Every '\n' replaced by a blank. */
  function NewlinesToBlanks(s: string): (r: string)
    ensures |r| == |s|
  {
    seq(|s|, i requires 0 <= i < |s| => if s[i] == '\n' then ' ' else s[i])
  }

  /** A text whose only line terminators are '\n' characters. */
  predicate OnlyNewlineBreaks(s: string)
  {
    forall i | 0 <= i < |s| :: IsLineBoundary(s[i]) ==> s[i] == '\n'
  }

  lemma BlanksOfConcat(a: string, b: string)
    ensures NewlinesToBlanks(a + "\n" + b) == NewlinesToBlanks(a) + " " + NewlinesToBlanks(b)
  {
    var l, r := NewlinesToBlanks(a + "\n" + b), NewlinesToBlanks(a) + " " + NewlinesToBlanks(b);
    forall i | 0 <= i < |l| ensures l[i] == r[i] {
      if i > |a| {
        assert (a + "\n" + b)[i] == b[i - |a| - 1];
      }
    }
  }

  lemma BlanksOfLine(line: string)
    requires forall i | 0 <= i < |line| :: !IsLineBoundary(line[i])
    ensures NewlinesToBlanks(line) == line
  {
  }

  lemma JoinCons(sep: string, first: string, parts: seq<string>)
    requires |parts| > 0
    ensures Join(sep, [first] + parts) == first + sep + Join(sep, parts)
  {
    assert ([first] + parts)[1..] == parts;
  }

  /** Splitting at a '\n': the first line, then the lines of the rest. */
  lemma SplitAtNewline(s: string, n: nat)
    requires n == LineLength(s) && n < |s| && s[n] == '\n'
    ensures SplitLines(s) == [s[..n]] + SplitLines(s[n + 1..])
  {
    assert s != [] && n != |s|;
  }

  /** A text without line boundaries. */
  predicate Unbroken(line: string)
  {
    forall i | 0 <= i < |line| :: !IsLineBoundary(line[i])
  }

  /** No line that `str.splitlines()` returns holds a line boundary. */
  lemma {:induction false} SplitLinesUnbroken(s: string)
    ensures forall j | 0 <= j < |SplitLines(s)| :: Unbroken(SplitLines(s)[j])
    decreases |s|
  {
    if s != [] {
      var n := LineLength(s);
      LineHasNoBoundary(s);
      var lines := SplitLines(s);
      if n < |s| {
        var skip := if s[n] == '\r' && n + 1 < |s| && s[n + 1] == '\n' then 2 else 1;
        var rest := s[n + skip..];
        SplitLinesUnbroken(rest);
        assert lines == [s[..n]] + SplitLines(rest);
        forall j | 0 < j < |lines| ensures Unbroken(lines[j]) {
          assert lines[j] == SplitLines(rest)[j - 1];
        }
      }
      assert Unbroken(lines[0]);
    }
  }

  /** A character that is in neither the separator nor any part is not in the joined text. */
  lemma {:induction false} JoinLacks(sep: string, parts: seq<string>, c: char)
    requires c !in sep
    requires forall j | 0 <= j < |parts| :: c !in parts[j]
    ensures c !in Join(sep, parts)
  {
    if |parts| > 1 {
      JoinLacks(sep, parts[1..], c);
    }
  }

  /** `s` without its final '\n', if it ends with one. */
  function WithoutFinalNewline(s: string): (r: string)
    ensures r == s || (s == r + "\n")
  {
    if |s| > 0 && s[|s| - 1] == '\n' then s[..|s| - 1] else s
  }

  /** Only the last line decides whether a final '\n' is dropped. */
  lemma WithoutFinalNewlineOfConcat(line: string, rest: string)
    requires rest != []
    ensures WithoutFinalNewline(line + "\n" + rest) == line + "\n" + WithoutFinalNewline(rest)
  {
    var s := line + "\n" + rest;
    assert s[|s| - 1] == rest[|rest| - 1];
    if rest[|rest| - 1] == '\n' {
      assert s[..|s| - 1] == line + "\n" + rest[..|rest| - 1];
    }
  }

  /** For text broken only by '\n', joining its lines with blanks is the same
      as dropping one final '\n' and turning every other '\n' into a blank. */
  lemma {:induction false} JoinedLinesAreBlanked(s: string)
    requires OnlyNewlineBreaks(s)
    ensures Join(" ", SplitLines(s)) == NewlinesToBlanks(WithoutFinalNewline(s))
    decreases |s|
  {
    if s == [] {
      return;
    }
    var n := LineLength(s);
    var line := s[..n];
    LineHasNoBoundary(s);
    BlanksOfLine(line);
    if n == |s| {
      assert line == s;
      return;
    }
    var rest := s[n + 1..];
    SplitAtNewline(s, n);
    assert s == line + "\n" + rest;
    if rest == [] {
      assert s[..|s| - 1] == line;
      return;
    }
    assert OnlyNewlineBreaks(rest) by {
      forall i | 0 <= i < |rest| && IsLineBoundary(rest[i]) ensures rest[i] == '\n' {
        assert rest[i] == s[n + 1 + i];
      }
    }
    JoinedLinesAreBlanked(rest);
    JoinCons(" ", line, SplitLines(rest));
    WithoutFinalNewlineOfConcat(line, rest);
    BlanksOfConcat(line, WithoutFinalNewline(rest));
  }

  // ---------------------------------------------------------------------
  // Case and order

  /** `str.lower()` on ASCII letters; other characters are kept. */
  function Lower(s: string): (r: string)
    ensures |r| == |s|
  {
    seq(|s|, i requires 0 <= i < |s| => if 'A' <= s[i] <= 'Z' then (s[i] as int + 32) as char else s[i])
  }

  /** Python's ordering of strings: lexicographic by code point. */
  predicate LessEq(a: string, b: string)
  {
    if a == [] then true
    else if b == [] then false
    else if a[0] != b[0] then a[0] < b[0]
    else LessEq(a[1..], b[1..])
  }

  lemma {:induction false} LessEqTotal(a: string, b: string)
    ensures LessEq(a, b) || LessEq(b, a)
  {
    if a != [] && b != [] && a[0] == b[0] {
      LessEqTotal(a[1..], b[1..]);
    }
  }

  predicate Sorted(s: seq<string>)
  {
    forall i | 0 < i < |s| :: LessEq(s[i - 1], s[i])
  }

  function Insert(x: string, s: seq<string>): seq<string>
  {
    if s == [] then [x]
    else if LessEq(x, s[0]) then [x] + s
    else [s[0]] + Insert(x, s[1..])
  }

  /** `list.sort()` on strings (insertion sort). */
  function Sort(s: seq<string>): seq<string>
  {
    if s == [] then [] else Insert(s[|s| - 1], Sort(s[..|s| - 1]))
  }

  lemma {:induction false} InsertSorted(x: string, s: seq<string>)
    requires Sorted(s)
    ensures Sorted(Insert(x, s))
    ensures |Insert(x, s)| == |s| + 1
    ensures Insert(x, s)[0] == x || (s != [] && Insert(x, s)[0] == s[0])
  {
    if s != [] && !LessEq(x, s[0]) {
      LessEqTotal(x, s[0]);
      InsertSorted(x, s[1..]);
    }
  }

  /** Inserting adds the one element. */
  lemma {:induction false} InsertCounts(x: string, s: seq<string>)
    ensures multiset(Insert(x, s)) == multiset(s) + multiset{x}
  {
    if s != [] {
      assert s == [s[0]] + s[1..];
      if !LessEq(x, s[0]) {
        InsertCounts(x, s[1..]);
      }
    }
  }

  /** The sorted keys are in order and are the same keys. */
  lemma {:induction false} SortSorted(s: seq<string>)
    ensures Sorted(Sort(s)) && multiset(Sort(s)) == multiset(s) && |Sort(s)| == |s|
  {
    if s != [] {
      SortSorted(s[..|s| - 1]);
      InsertSorted(s[|s| - 1], Sort(s[..|s| - 1]));
      InsertCounts(s[|s| - 1], Sort(s[..|s| - 1]));
      assert s == s[..|s| - 1] + [s[|s| - 1]];
    }
  }

  /** No element occurs twice. */
  predicate Distinct<T(==)>(s: seq<T>)
  {
    forall i, j | 0 <= i < j < |s| :: s[i] != s[j]
  }

  /** No element occurs twice, stated from the last element back, so that
      it unfolds one element at a time. */
  predicate Unique<T(==)>(s: seq<T>)
  {
    |s| == 0 || (s[|s| - 1] !in s[..|s| - 1] && Unique(s[..|s| - 1]))
  }

  lemma {:induction false} UniqueDistinct<T>(s: seq<T>)
    ensures Unique(s) <==> Distinct(s)
  {
    if s != [] {
      var init, last := s[..|s| - 1], s[|s| - 1];
      UniqueDistinct(init);
      assert forall i | 0 <= i < |init| :: init[i] == s[i];
    }
  }

  lemma {:induction false} DistinctCounts<T>(s: seq<T>)
    requires Distinct(s)
    ensures forall x :: multiset(s)[x] <= 1
  {
    if s != [] {
      var init, last := s[..|s| - 1], s[|s| - 1];
      assert s == init + [last];
      DistinctCounts(init);
      assert forall i | 0 <= i < |init| :: init[i] == s[i] != s[|s| - 1];
    }
  }

  lemma CountsDistinct<T>(s: seq<T>)
    requires forall x :: multiset(s)[x] <= 1
    ensures Distinct(s)
  {
    forall i, j | 0 <= i < j < |s| ensures s[i] != s[j] {
      assert s == s[..j] + s[j..];
      assert s[..j][i] == s[i] && s[j..][0] == s[j];
      assert multiset(s) == multiset(s[..j]) + multiset(s[j..]);
      assert multiset(s[..j])[s[i]] >= 1 && multiset(s[j..])[s[j]] >= 1;
      assert multiset(s)[s[i]] <= 1;
    }
  }

  /** Sorting keys that are distinct gives keys that are distinct. */
  lemma SortDistinct(s: seq<string>)
    requires Distinct(s)
    ensures Distinct(Sort(s))
  {
    DistinctCounts(s);
    SortSorted(s);
    CountsDistinct(Sort(s));
  }
}
