/** The pieces of Python's and JavaScript's string semantics that the system
    relies on: `str.strip()`, `str.split()` (counted), `str.lower()`,
    `in` on strings, `find`/`rfind`, slicing, `\d+` digit runs and `int()`
    on them, `str()` of a natural number, and JavaScript's `.length`. */
module PyStrings {

  import opened Wrappers

  /** Python's `str.isspace()`: the characters `strip()` removes and `split()`
      splits on. */
  predicate IsSpace(c: char) {
    var n := c as int;
    (9 <= n <= 13) || (28 <= n <= 32) || n == 0x85 || n == 0xA0 || n == 0x1680
    || (0x2000 <= n <= 0x200A) || n == 0x2028 || n == 0x2029 || n == 0x202F
    || n == 0x205F || n == 0x3000
  }

  /** Every character is whitespace (the empty string included). */
  predicate IsBlank(s: string) {
    forall i :: 0 <= i < |s| ==> IsSpace(s[i])
  }

  /** `s.lstrip()`: the suffix left after removing leading whitespace. */
  function StripLeft(s: string): (r: string)
    ensures |r| <= |s| && r == s[|s| - |r|..]
    ensures IsBlank(s[..|s| - |r|])
    ensures r != [] ==> !IsSpace(r[0])
  {
    if s != [] && IsSpace(s[0]) then
      var r := StripLeft(s[1..]);
      var k := |s| - |r|;
      assert s[1..][k - 1..] == s[k..];
      assert s[..k] == [s[0]] + s[1..][..k - 1];
      r
    else s
  }

  /** `s.rstrip()`: the prefix left after removing trailing whitespace. */
  function StripRight(s: string): (r: string)
    ensures |r| <= |s| && r == s[..|r|]
    ensures IsBlank(s[|r|..])
    ensures r != [] ==> !IsSpace(r[|r| - 1])
  {
    if s != [] && IsSpace(s[|s| - 1]) then
      var init := s[..|s| - 1];
      var r := StripRight(init);
      assert init[..|r|] == s[..|r|];
      assert s[|r|..] == init[|r|..] + [s[|s| - 1]];
      r
    else s
  }

  /** `s.strip()`: empty exactly when `s` is blank, and otherwise neither
      starts nor ends with whitespace. */
  function Strip(s: string): (r: string)
    ensures |r| <= |s|
    ensures r == "" <==> IsBlank(s)
    ensures r != "" ==> !IsSpace(r[0]) && !IsSpace(r[|r| - 1])
  {
    var l := StripLeft(s);
    var r := StripRight(l);
    BlankSplit(s, |s| - |l|);
    BlankSplit(l, |r|);
    r
  }

  /** A string is blank exactly when both halves of any split are. */
  lemma BlankSplit(s: string, k: nat)
    requires k <= |s|
    ensures IsBlank(s) <==> IsBlank(s[..k]) && IsBlank(s[k..])
  {
    if IsBlank(s[..k]) && IsBlank(s[k..]) {
      forall i | 0 <= i < |s| ensures IsSpace(s[i]) {
        if i < k { assert s[i] == s[..k][i]; } else { assert s[i] == s[k..][i - k]; }
      }
    }
  }

  /** Stripping adds no character: one absent from `s` is absent from
      `Strip(s)`. */
  lemma {:induction false} StripKeepsAbsent(s: string, c: char)
    requires c !in s
    ensures c !in Strip(s)
  {
    var l := StripLeft(s);
    assert c !in l by {
      forall k | 0 <= k < |l| ensures l[k] != c {
        assert l[k] == s[|s| - |l| + k];
      }
    }
    var r := StripRight(l);
    assert c !in r by {
      forall k | 0 <= k < |r| ensures r[k] != c {
        assert r[k] == l[k];
      }
    }
  }

  /** `s.lstrip(c)` */
  function StripCharLeft(s: string, c: char): (r: string)
    ensures |r| <= |s| && r == s[|s| - |r|..]
    ensures forall k :: 0 <= k < |s| - |r| ==> s[k] == c
    ensures r != [] ==> r[0] != c
  {
    if s != [] && s[0] == c then
      var t := s[1..];
      var r := StripCharLeft(t, c);
      assert t[|t| - |r|..] == s[|s| - |r|..];
      forall k | 1 <= k < |s| - |r| ensures s[k] == c {
        assert s[k] == t[k - 1];
      }
      r
    else s
  }

  /** `s.rstrip(c)` */
  function StripCharRight(s: string, c: char): (r: string)
    ensures |r| <= |s| && r == s[..|r|]
    ensures forall k :: |r| <= k < |s| ==> s[k] == c
    ensures r != [] ==> r[|r| - 1] != c
  {
    if s != [] && s[|s| - 1] == c then
      var r := StripCharRight(s[..|s| - 1], c);
      assert s[..|s| - 1][..|r|] == s[..|r|];
      r
    else s
  }

  /** `r` is `s[i..i + |r|]`, and everything before and after it in `s`
      is `c`. */
  predicate CutRuns(s: string, c: char, i: nat, r: string) {
    && i + |r| <= |s| && r == s[i..i + |r|]
    && (forall k :: 0 <= k < i ==> s[k] == c)
    && (forall k :: i + |r| <= k < |s| ==> s[k] == c)
  }

  /** `s.strip(c)`: the part of `s` left after removing every leading and
      trailing occurrence of `c`; it neither starts nor ends with `c`. */
  function StripChar(s: string, c: char): (r: string)
    ensures |r| <= |s|
    ensures r != [] ==> r[0] != c && r[|r| - 1] != c
  {
    var l := StripCharLeft(s, c);
    var r := StripCharRight(l, c);
    MiddleSlice(s, l, r, c);
    r
  }

  /** What `s.strip(c)` cuts off is a run of `c` on each side: the result is
      the slice of `s` that starts where the leading run ends. */
  lemma StripCharCutsRuns(s: string, c: char)
    ensures CutRuns(s, c, |s| - |StripCharLeft(s, c)|, StripChar(s, c))
  {
    MiddleSlice(s, StripCharLeft(s, c), StripChar(s, c), c);
  }

  /** A prefix `r` of a suffix `l` of `s` sits in `s` right where `l`
      starts; when `l` is `s` after a run of `c` and `r` is `l` before one,
      `r` is `s` with both runs cut off. */
  lemma {:induction false} MiddleSlice(s: string, l: string, r: string, c: char)
    requires |l| <= |s| && l == s[|s| - |l|..]
    requires forall k :: 0 <= k < |s| - |l| ==> s[k] == c
    requires l != [] ==> l[0] != c
    requires |r| <= |l| && r == l[..|r|]
    requires forall k :: |r| <= k < |l| ==> l[k] == c
    requires r != [] ==> r[|r| - 1] != c
    ensures r != [] ==> r[0] != c && r[|r| - 1] != c
    ensures CutRuns(s, c, |s| - |l|, r)
  {
    var i := |s| - |l|;
    if r != [] { assert r[0] == l[0]; }
    forall k | i + |r| <= k < |s| ensures s[k] == c {
      assert s[k] == l[k - i];
    }
  }

  /** True at the first character of each word of `s`: a non-space character
      at the start or after a space. */
  predicate WordStart(s: string, i: nat)
    requires i < |s|
  {
    !IsSpace(s[i]) && (i == 0 || IsSpace(s[i - 1]))
  }

  /** `len(s.split())`: the number of maximal runs of non-whitespace
      characters, counted by their first characters. */
  function WordCount(s: string): (n: nat)
    ensures n <= |s|
  {
    if s == [] then 0
    else WordCount(s[..|s| - 1]) + (if WordStart(s, |s| - 1) then 1 else 0)
  }

  /** `s.split()` is empty exactly when `s` is blank. */
  lemma {:induction false} WordCountZeroIffBlank(s: string)
    ensures WordCount(s) == 0 <==> IsBlank(s)
    decreases |s|
  {
    if s != [] {
      var init := s[..|s| - 1];
      WordCountZeroIffBlank(init);
      BlankSplit(s, |s| - 1);
      assert s[|s| - 1..] == [s[|s| - 1]];
    }
  }

  /** The words `split()` returns, each given by the index of its first
      character. */
  function WordStarts(s: string): set<nat> {
    set i: nat | i < |s| && WordStart(s, i)
  }

  /** Dropping the last character keeps every earlier word start. */
  lemma {:induction false} WordStartsOfInit(s: string)
    requires s != []
    ensures var last := |s| - 1;
      WordStarts(s) == WordStarts(s[..last]) + (if WordStart(s, last) then {last} else {})
  {
    var init, last := s[..|s| - 1], |s| - 1;
    forall i: nat
      ensures i in WordStarts(s) <==> i in WordStarts(init) || (i == last && WordStart(s, last))
    {
      if i < last {
        assert s[i] == init[i];
        if i > 0 { assert s[i - 1] == init[i - 1]; }
      }
    }
  }

  /** `WordCount` counts exactly the word starts. */
  lemma {:induction false} WordCountCountsWordStarts(s: string)
    ensures WordCount(s) == |WordStarts(s)|
    decreases |s|
  {
    if s == [] {
      assert WordStarts(s) == {};
    } else {
      var init, last := s[..|s| - 1], |s| - 1;
      WordCountCountsWordStarts(init);
      WordStartsOfInit(s);
      assert last !in WordStarts(init);
    }
  }

  /** ASCII part of `str.lower()`. */
  function LowerChar(c: char): char {
    if 'A' <= c <= 'Z' then (c as int + 32) as char else c
  }

  function Lower(s: string): (r: string)
    ensures |r| == |s|
    ensures forall i :: 0 <= i < |s| ==> r[i] == LowerChar(s[i])
  {
    if s == [] then [] else [LowerChar(s[0])] + Lower(s[1..])
  }

  /** Python's `needle in hay` on strings. */
  predicate Contains(hay: string, needle: string)
    ensures Contains(hay, needle) ==> |needle| <= |hay|
  {
    exists i :: 0 <= i <= |hay| - |needle| && IsPrefix(needle, hay[i..])
  }

  predicate IsPrefix(p: string, s: string) {
    |p| <= |s| && s[..|p|] == p
  }

  /** JavaScript's `s.startsWith(p)`. */
  predicate StartsWith(s: string, p: string) {
    IsPrefix(p, s)
  }

  /** JavaScript's `s.length`: UTF-16 code units, two for a character above
      U+FFFF. */
  function JsLength(s: string): (n: nat)
    ensures |s| <= n <= 2 * |s|
  {
    if s == [] then 0 else (if s[0] as int > 0xFFFF then 2 else 1) + JsLength(s[1..])
  }

  /** `s.find(c)`: the first index of `c`, or -1. */
  function Find(s: string, c: char): (r: int)
    ensures -1 <= r < |s|
    ensures r == -1 <==> c !in s
    ensures r >= 0 ==> s[r] == c && forall j :: 0 <= j < r ==> s[j] != c
  {
    if s == [] then -1
    else if s[0] == c then 0
    else
      var k := Find(s[1..], c);
      if k == -1 then -1 else 1 + k
  }

  /** `s.rfind(c)`: the last index of `c`, or -1. */
  function RFind(s: string, c: char): (r: int)
    ensures -1 <= r < |s|
    ensures r == -1 <==> c !in s
    ensures r >= 0 ==> s[r] == c && forall j :: r < j < |s| ==> s[j] != c
  {
    if s == [] then -1
    else if s[|s| - 1] == c then |s| - 1
    else
      var init := s[..|s| - 1];
      assert s == init + [s[|s| - 1]];
      RFind(init, c)
  }

  /** Python's `s[i:j]` for non-negative bounds: clipped to the string, and
      empty when `j <= i`. */
  function PySlice(s: string, i: nat, j: nat): (r: string)
    ensures i < j <= |s| ==> r == s[i..j]
    ensures j <= i ==> r == ""
  {
    var lo := if i < |s| then i else |s|;
    var hi := if j < |s| then j else |s|;
    if lo < hi then s[lo..hi] else ""
  }

  predicate IsDigit(c: char) {
    '0' <= c <= '9'
  }

  predicate AllDigits(s: string) {
    forall i :: 0 <= i < |s| ==> IsDigit(s[i])
  }

  function DigitValue(c: char): nat
    requires IsDigit(c)
  {
    c as int - '0' as int
  }

  function DigitChar(d: nat): (c: char)
    requires d < 10
    ensures IsDigit(c) && DigitValue(c) == d
  {
    ('0' as int + d) as char
  }

  /** `int(s)` for a string of decimal digits. */
  function DecimalValue(s: string): (n: nat)
    requires AllDigits(s)
    ensures n < Pow10(|s|)
  {
    if s == [] then 0 else 10 * DecimalValue(s[..|s| - 1]) + DigitValue(s[|s| - 1])
  }

  function Pow10(k: nat): (p: nat)
    ensures p >= 1
  {
    if k == 0 then 1 else 10 * Pow10(k - 1)
  }

  /** `str(n)` for a natural number. */
  function NatToDecimal(n: nat): (r: string)
    ensures r != [] && AllDigits(r)
  {
    if n < 10 then [DigitChar(n)] else NatToDecimal(n / 10) + [DigitChar(n % 10)]
  }

  /** `int(str(n)) == n`. */
  lemma {:induction false} DecimalRoundTrip(n: nat)
    ensures DecimalValue(NatToDecimal(n)) == n
  {
    if n >= 10 {
      DecimalRoundTrip(n / 10);
      var s := NatToDecimal(n);
      assert s[..|s| - 1] == NatToDecimal(n / 10);
    }
  }

  /** `str(n)` never has a leading zero, except for `0` itself. */
  lemma {:induction false} DecimalHasNoLeadingZero(n: nat)
    ensures NatToDecimal(n)[0] == '0' <==> n == 0
  {
    if n >= 10 {
      DecimalHasNoLeadingZero(n / 10);
    }
  }

  /** The longest prefix of `s` made of digits. */
  function LeadingDigits(s: string): (r: string)
    ensures |r| <= |s| && r == s[..|r|] && AllDigits(r)
    ensures |r| < |s| ==> !IsDigit(s[|r|])
  {
    if s != [] && IsDigit(s[0]) then [s[0]] + LeadingDigits(s[1..]) else []
  }

  /** The index of the first digit of `s`, or `|s|` when there is none. */
  function FirstDigitIndex(s: string): (i: nat)
    ensures i <= |s|
    ensures forall k :: 0 <= k < i ==> !IsDigit(s[k])
    ensures i < |s| ==> IsDigit(s[i])
  {
    if s == [] || IsDigit(s[0]) then 0 else 1 + FirstDigitIndex(s[1..])
  }

  /** `re.search(r"\d+", s).group(0)`: the leftmost maximal run of digits,
      or None when `s` has no digit. */
  function FirstDigitRun(s: string): (r: Option<string>)
    ensures r.None? <==> forall k :: 0 <= k < |s| ==> !IsDigit(s[k])
    ensures r.Some? ==> r.value != "" && AllDigits(r.value)
  {
    var i := FirstDigitIndex(s);
    if i == |s| then None else Some(LeadingDigits(s[i..]))
  }

  /** The run `FirstDigitRun` finds is `s[i..j]` for an `i` with no digit
      before it and a `j` that cannot be extended to the right: the
      leftmost maximal run, as `re.search` returns it. */
  lemma FirstDigitRunIsLeftmostRun(s: string)
    ensures FirstDigitRun(s).Some? ==>
      exists i, j :: 0 <= i < j <= |s|
        && (forall k :: 0 <= k < i ==> !IsDigit(s[k]))
        && AllDigits(s[i..j]) && (j == |s| || !IsDigit(s[j]))
        && FirstDigitRun(s).value == s[i..j]
  {
    var i := FirstDigitIndex(s);
    if i < |s| {
      var d := LeadingDigits(s[i..]);
      assert d != [];
      assert s[i..i + |d|] == d;
      assert i + |d| < |s| ==> s[i + |d|] == s[i..][|d|];
    }
  }

  /** The text both front ends put in place of a missing value. */
  const Unknown: string := "Unknown"

  /** It has no surrounding whitespace. */
  lemma StripKeepsUnknown()
    ensures Strip(Unknown) == Unknown
  {
    assert !IsSpace(Unknown[0]) && !IsSpace(Unknown[6]);
    assert StripLeft(Unknown) == Unknown;
    assert StripRight(Unknown) == Unknown;
  }

  /** A sign in front of a number is not part of the digit run. */
  lemma SignIsIgnored(s: string)
    ensures FirstDigitRun("-" + s) == FirstDigitRun(s)
  {
    var t := "-" + s;
    assert t[1..] == s;
    assert FirstDigitIndex(t) == 1 + FirstDigitIndex(s);
    assert t[FirstDigitIndex(t)..] == s[FirstDigitIndex(s)..];
  }
}
