/**
 * The string operations the agents use, with Python's meaning:
 * `t in s`, `s.find(t)`, `s.split(sep)`, `s.lower()`, `s.strip(chars)`,
 * `s.capitalize()`, `s.title()`, `re.findall` counting, the number
 * pattern `\d[\d,]+`, and the greedy brace pattern `\{.*\}` (DOTALL).
 * Case mapping covers ASCII letters only.
 */
module Text {
  import opened Wrappers

  /** `t` occurs in `s` starting at index `i`. */
  predicate IsAt(s: string, t: string, i: nat)
  {
    i + |t| <= |s| && s[i..i + |t|] == t
  }

  /** The first index at or after `from` where `t` occurs in `s`. */
  function FindFrom(s: string, t: string, from: nat): (r: Option<nat>)
    ensures r.Some? ==> from <= r.value && IsAt(s, t, r.value)
    ensures r.Some? ==> forall j :: from <= j < r.value ==> !IsAt(s, t, j)
    ensures r.None? ==> forall j :: from <= j ==> !IsAt(s, t, j)
    decreases |s| - from
  {
    if from + |t| > |s| then None
    else if IsAt(s, t, from) then Some(from)
    else FindFrom(s, t, from + 1)
  }

  /** Python's `s.find(t)`, with `None` in place of -1. */
  function Find(s: string, t: string): Option<nat>
  {
    FindFrom(s, t, 0)
  }

  /** An occurrence with none before it is what `find` returns. */
  lemma FindIs(s: string, t: string, i: nat)
    requires IsAt(s, t, i)
    requires forall j :: 0 <= j < i ==> !IsAt(s, t, j)
    ensures Find(s, t) == Some(i)
  {
  }

  /** Python's `t in s` on strings. */
  predicate Contains(s: string, t: string)
  {
    Find(s, t).Some?
  }

  lemma ContainsAt(s: string, t: string, i: nat)
    requires IsAt(s, t, i)
    ensures Contains(s, t)
  {
  }

  lemma ContainsWitness(s: string, t: string) returns (i: nat)
    requires Contains(s, t)
    ensures IsAt(s, t, i)
  {
    i := Find(s, t).value;
  }

  lemma ContainsLeft(a: string, b: string, t: string)
    requires Contains(a, t)
    ensures Contains(a + b, t)
  {
    var i := ContainsWitness(a, t);
    assert (a + b)[i..i + |t|] == a[i..i + |t|];
    ContainsAt(a + b, t, i);
  }

  lemma ContainsRight(a: string, b: string, t: string)
    requires Contains(b, t)
    ensures Contains(a + b, t)
  {
    var i := ContainsWitness(b, t);
    assert (a + b)[|a| + i..|a| + i + |t|] == b[i..i + |t|];
    ContainsAt(a + b, t, |a| + i);
  }

  /** An occurrence of `u` inside an occurrence of `t` is an occurrence of `u`. */
  lemma ContainsTrans(s: string, t: string, u: string)
    requires Contains(s, t) && Contains(t, u)
    ensures Contains(s, u)
  {
    var i := ContainsWitness(s, t);
    var j := ContainsWitness(t, u);
    assert s[i..i + |t|] == t;
    forall k | 0 <= k < |u|
      ensures s[i + j + k] == u[k]
    {
      assert s[i + j + k] == s[i..i + |t|][j + k];
    }
    assert s[i + j..i + j + |u|] == u;
    ContainsAt(s, u, i + j);
  }

  /** An occurrence inside a piece of a string is an occurrence in the whole. */
  lemma ContainsInfix(a: string, b: string, c: string, t: string)
    requires Contains(b, t)
    ensures Contains(a + b + c, t)
  {
    var i := ContainsWitness(b, t);
    assert (a + b + c)[|a| + i..|a| + i + |t|] == b[i..i + |t|];
    ContainsAt(a + b + c, t, |a| + i);
  }

  // ---------------------------------------------------------------- case

  function LowerChar(c: char): char
  {
    if 'A' <= c <= 'Z' then (c as int + 32) as char else c
  }

  function UpperChar(c: char): char
  {
    if 'a' <= c <= 'z' then (c as int - 32) as char else c
  }

  predicate IsLetter(c: char)
  {
    'a' <= c <= 'z' || 'A' <= c <= 'Z'
  }

  /** Python's `s.lower()`. */
  function Lower(s: string): (r: string)
    ensures |r| == |s|
    ensures forall i :: 0 <= i < |s| ==> r[i] == LowerChar(s[i])
  {
    seq(|s|, i requires 0 <= i < |s| => LowerChar(s[i]))
  }

  /** Python's `s.upper()`. */
  function Upper(s: string): (r: string)
    ensures |r| == |s|
    ensures forall i :: 0 <= i < |s| ==> r[i] == UpperChar(s[i])
  {
    seq(|s|, i requires 0 <= i < |s| => UpperChar(s[i]))
  }

  /** Python's `s.capitalize()`: first character upper case, the rest lower case. */
  function Capitalize(s: string): (r: string)
    ensures |r| == |s|
  {
    if s == [] then [] else [UpperChar(s[0])] + Lower(s[1..])
  }

  /** Python's `s.title()`: a letter after a non-letter is upper case, any other letter lower case. */
  function Title(s: string): (r: string)
    ensures |r| == |s|
  {
    TitleAfter(s, false)
  }

  function TitleAfter(s: string, afterLetter: bool): (r: string)
    ensures |r| == |s|
    decreases |s|
  {
    if s == [] then []
    else
      var c := if !IsLetter(s[0]) then s[0] else if afterLetter then LowerChar(s[0]) else UpperChar(s[0]);
      [c] + TitleAfter(s[1..], IsLetter(s[0]))
  }

  /** Inside a word, a run of lower-case letters is left as it is by `title()`. */
  lemma {:induction false} TitleLowerRun(w: string, rest: string)
    requires forall i :: 0 <= i < |w| ==> 'a' <= w[i] <= 'z'
    ensures TitleAfter(w + rest, true) == w + TitleAfter(rest, true)
  {
    if w != [] {
      assert (w + rest)[0] == w[0];
      assert (w + rest)[1..] == w[1..] + rest;
      TitleLowerRun(w[1..], rest);
    } else {
      assert w + rest == rest;
    }
  }

  /** Text without capitals is capitalised by upper-casing its first character alone. */
  lemma CapitalizedAs(w: string, cap: string)
    requires |w| >= 1 && forall i :: 0 <= i < |w| ==> !('A' <= w[i] <= 'Z')
    requires cap == [UpperChar(w[0])] + w[1..]
    ensures Capitalize(w) == cap
  {
    assert Lower(w[1..]) == w[1..];
  }

  lemma LowerConcat(a: string, b: string)
    ensures Lower(a + b) == Lower(a) + Lower(b)
  {
  }

  // ---------------------------------------------------------------- strip

  /** Python's `str.strip()` default set: the characters `str.isspace()` accepts. */
  const Whitespace: set<char> := {
    ' ', '\t', '\n', '\r', '\U{000B}', '\U{000C}',
    '\U{001C}', '\U{001D}', '\U{001E}', '\U{001F}', '\U{0085}', '\U{00A0}', '\U{1680}',
    '\U{2000}', '\U{2001}', '\U{2002}', '\U{2003}', '\U{2004}', '\U{2005}', '\U{2006}',
    '\U{2007}', '\U{2008}', '\U{2009}', '\U{200A}', '\U{2028}', '\U{2029}', '\U{202F}',
    '\U{205F}', '\U{3000}'
  }

  function StripLeft(s: string, cs: set<char>): (r: string)
    ensures |r| <= |s| && r == s[|s| - |r|..]
    ensures forall k :: 0 <= k < |s| - |r| ==> s[k] in cs
    ensures r != [] ==> r[0] !in cs
    decreases |s|
  {
    if s != [] && s[0] in cs then StripLeft(s[1..], cs) else s
  }

  function StripRight(s: string, cs: set<char>): (r: string)
    ensures |r| <= |s| && r == s[..|r|]
    ensures forall k :: |r| <= k < |s| ==> s[k] in cs
    ensures r != [] ==> r[|r| - 1] !in cs
    decreases |s|
  {
    if s != [] && s[|s| - 1] in cs then StripRight(s[..|s| - 1], cs) else s
  }

  /** Python's `s.strip(chars)`, with `cs` the set of characters in `chars`. */
  function Strip(s: string, cs: set<char>): (r: string)
  {
    StripRight(StripLeft(s, cs), cs)
  }

  /** Stripping keeps a window of `s` whose two ends are outside `cs`. */
  lemma StripEnds(s: string, cs: set<char>)
    ensures var t := Strip(s, cs);
      (forall c :: c in t ==> c in s) && (t != [] ==> t[0] !in cs && t[|t| - 1] !in cs)
  {
    var left := StripLeft(s, cs);
    var t := StripRight(left, cs);
    SliceChars(left, 0, |t|);
    SliceChars(s, |s| - |left|, |s|);
    if t != [] {
      assert t[0] == left[0];
    }
  }

  /** A slice holds only characters of the whole. */
  lemma SliceChars(s: string, i: nat, j: nat)
    requires i <= j <= |s|
    ensures forall c :: c in s[i..j] ==> c in s
  {
    forall c | c in s[i..j]
      ensures c in s
    {
      var k :| 0 <= k < j - i && s[i..j][k] == c;
      assert s[i + k] == c;
    }
  }

  // ---------------------------------------------------------------- split

  /** Python's `s.split(sep)` for a non-empty separator. */
  function Split(s: string, sep: string): (parts: seq<string>)
    requires |sep| > 0
    ensures |parts| >= 1
    decreases |s|
  {
    match Find(s, sep)
    case None => [s]
    case Some(i) => [s[..i]] + Split(s[i + |sep|..], sep)
  }

  function Last<T>(xs: seq<T>): T
    requires |xs| > 0
  {
    xs[|xs| - 1]
  }

  /** There is more than one piece exactly when the separator occurs. */
  lemma SplitMany(s: string, sep: string)
    requires |sep| > 0
    ensures |Split(s, sep)| > 1 <==> Contains(s, sep)
    ensures Split(s, sep)[0] == if Contains(s, sep) then s[..Find(s, sep).value] else s
  {
  }

  /** The second piece of a split is the first piece of the text after the first separator. */
  lemma SplitSecond(s: string, sep: string)
    requires |sep| > 0 && Contains(s, sep)
    ensures Split(s, sep)[1] == Split(s[Find(s, sep).value + |sep|..], sep)[0]
  {
  }

  /** The first piece of a split is the prefix of `s` before the first separator, or all of `s`. */
  lemma SplitFirstPiece(s: string, sep: string)
    requires |sep| > 0
    ensures var seg := Split(s, sep)[0];
      seg == s[..|seg|] && (forall k :: 0 <= k < |seg| ==> !IsAt(s, sep, k)) &&
      (|seg| < |s| ==> IsAt(s, sep, |seg|))
  {
    SplitMany(s, sep);
  }

  /** `t` occurs in a suffix of `s` exactly where it occurs in `s`, shifted. */
  lemma IsAtSuffix(s: string, t: string, k: nat, p: nat)
    requires k <= |s|
    ensures IsAt(s[k..], t, p) <==> IsAt(s, t, k + p)
  {
    if k + p + |t| <= |s| {
      assert s[k..][p..p + |t|] == s[k + p..k + p + |t|];
    }
  }

  lemma SplitLastStep(s: string, sep: string, i: nat)
    requires |sep| > 0 && Find(s, sep) == Some(i)
    ensures Last(Split(s, sep)) == Last(Split(s[i + |sep|..], sep))
  {
    var rest := Split(s[i + |sep|..], sep);
    var whole := Split(s, sep);
    assert whole == [s[..i]] + rest;
    assert |whole| == |rest| + 1;
    assert Last(whole) == whole[|rest|] == rest[|rest| - 1];
  }

  lemma SeparatorBeforeRest(s: string, sep: string, i: nat, k: nat)
    requires |sep| > 0 && Find(s, sep) == Some(i)
    requires k <= |s[i + |sep|..]|
    requires Contains(s[i + |sep|..], sep) ==> |sep| <= k && IsAt(s[i + |sep|..], sep, k - |sep|)
    requires !Contains(s[i + |sep|..], sep) ==> k == 0
    ensures IsAt(s, sep, i + k)
  {
    if k > 0 {
      IsAtSuffix(s, sep, i + |sep|, k - |sep|);
    }
  }

  /**
   * The last piece of a split is the text after the last separator: the
   * suffix `s[k..]`, free of `sep`, preceded by `sep` when `sep` occurs at
   * all, and the whole of `s` otherwise.
   */
  lemma {:induction false} SplitLastPiece(s: string, sep: string) returns (k: nat)
    requires |sep| > 0
    ensures k <= |s| && Last(Split(s, sep)) == s[k..]
    ensures !Contains(s[k..], sep)
    ensures Contains(s, sep) ==> |sep| <= k && IsAt(s, sep, k - |sep|)
    ensures !Contains(s, sep) ==> k == 0
    decreases |s|
  {
    if Find(s, sep).None? {
      k := 0;
    } else {
      var i := Find(s, sep).value;
      var rest := s[i + |sep|..];
      var k' := SplitLastPiece(rest, sep);
      k := i + |sep| + k';
      SeparatorBeforeRest(s, sep, i, k');
      SplitLastStep(s, sep, i);
      assert rest[k'..] == s[k..];
    }
  }

  /** The first piece of `Split(s, "\n")` is the text before the first newline. */
  lemma SplitFirstLine(s: string)
    ensures var line := Split(s, "\n")[0];
      |line| <= |s| && line == s[..|line|] && '\n' !in line &&
      (|line| < |s| ==> s[|line|] == '\n')
  {
    var line := Split(s, "\n")[0];
    SplitMany(s, "\n");
    if '\n' in line {
      var k :| 0 <= k < |line| && line[k] == '\n';
      assert IsAt(s, "\n", k);
    }
    if Contains(s, "\n") {
      assert IsAt(s, "\n", |line|);
    }
  }

  // ---------------------------------------------------------------- keyword lists

  /** The position of the last of `words` that occurs in `text` (a chain of `if`s where the last hit wins). */
  function LastContained(words: seq<string>, text: string): (r: Option<nat>)
    ensures r.Some? ==> r.value < |words| && Contains(text, words[r.value])
    ensures r.Some? ==> forall j :: r.value < j < |words| ==> !Contains(text, words[j])
    ensures r.None? ==> forall j :: 0 <= j < |words| ==> !Contains(text, words[j])
    decreases |words|
  {
    if words == [] then None
    else if Contains(text, words[|words| - 1]) then Some(|words| - 1)
    else LastContained(words[..|words| - 1], text)
  }

  /** The position of the first of `words` that occurs in `text` (a loop that stops at the first hit). */
  function FirstContained(words: seq<string>, text: string): (r: Option<nat>)
    ensures r.Some? ==> r.value < |words| && Contains(text, words[r.value])
    ensures r.Some? ==> forall j :: 0 <= j < r.value ==> !Contains(text, words[j])
    ensures r.None? ==> forall j :: 0 <= j < |words| ==> !Contains(text, words[j])
    decreases |words|
  {
    if words == [] then None
    else if Contains(text, words[0]) then Some(0)
    else match FirstContained(words[1..], text)
      case None => None
      case Some(k) => Some(k + 1)
  }

  // ---------------------------------------------------------------- counting

  /** Number of non-overlapping occurrences of `t` at or after `from`, scanning left to right. */
  function CountFrom(s: string, t: string, from: nat): nat
    requires |t| > 0
    decreases |s| - from
  {
    match FindFrom(s, t, from)
    case None => 0
    case Some(i) => 1 + CountFrom(s, t, i + |t|)
  }

  /** `len(re.findall(t, s))` for a pattern that matches only the literal `t`. */
  function Count(s: string, t: string): nat
    requires |t| > 0
  {
    CountFrom(s, t, 0)
  }

  lemma CountZero(s: string, t: string)
    requires |t| > 0
    ensures Count(s, t) == 0 <==> !Contains(s, t)
  {
  }

  // ---------------------------------------------------------------- numbers

  /**
   * The zero of every run of ten Unicode decimal digits (general category
   * Nd, Unicode 15.0) beyond ASCII `0`-`9`: each run is the zero and the
   * nine code points after it. The lowest is U+0660.
   */
  predicate IsOtherDigitZero(z: int)
  {
    z in {
      0x660, 0x6F0, 0x7C0, 0x966, 0x9E6, 0xA66, 0xAE6, 0xB66, 0xBE6, 0xC66,
      0xCE6, 0xD66, 0xDE6, 0xE50, 0xED0, 0xF20, 0x1040, 0x1090, 0x17E0, 0x1810,
      0x1946, 0x19D0, 0x1A80, 0x1A90, 0x1B50, 0x1BB0, 0x1C40, 0x1C50, 0xA620, 0xA8D0,
      0xA900, 0xA9D0, 0xA9F0, 0xAA50, 0xABF0, 0xFF10, 0x104A0, 0x10D30, 0x11066, 0x110F0,
      0x11136, 0x111D0, 0x112F0, 0x11450, 0x114D0, 0x11650, 0x116C0, 0x11730, 0x118E0, 0x11950,
      0x11C50, 0x11D50, 0x11DA0, 0x11F50, 0x16A60, 0x16AC0, 0x16B50, 0x1D7CE, 0x1D7D8, 0x1D7E2,
      0x1D7EC, 0x1D7F6, 0x1E140, 0x1E2F0, 0x1E4F0, 0x1E950, 0x1FBF0
    }
  }

  /**
   * `\d` in a `str` pattern without `re.ASCII`: any Unicode decimal digit,
   * not only `0`-`9`.
   */
  predicate IsDigit(c: char)
  {
    '0' <= c <= '9' ||
    (c as int >= 0x660 && exists z :: IsOtherDigitZero(z) && z <= c as int < z + 10)
  }

  predicate IsDigitOrComma(c: char)
  {
    IsDigit(c) || c == ','
  }

  /** The end of the longest run of digits and commas starting at `j`. */
  function RunEnd(s: string, j: nat): (e: nat)
    requires j <= |s|
    ensures j <= e <= |s|
    ensures forall k :: j <= k < e ==> IsDigitOrComma(s[k])
    ensures e < |s| ==> !IsDigitOrComma(s[e])
    decreases |s| - j
  {
    if j < |s| && IsDigitOrComma(s[j]) then RunEnd(s, j + 1) else j
  }

  /** The pattern `\d[\d,]+` can start matching at `i`. */
  predicate NumberStartsAt(s: string, i: nat)
  {
    i + 1 < |s| && IsDigit(s[i]) && IsDigitOrComma(s[i + 1])
  }

  function NumberStartFrom(s: string, from: nat): (r: Option<nat>)
    ensures r.Some? ==> from <= r.value && NumberStartsAt(s, r.value)
    ensures r.Some? ==> forall j :: from <= j < r.value ==> !NumberStartsAt(s, j)
    ensures r.None? ==> forall j :: from <= j ==> !NumberStartsAt(s, j)
    decreases |s| - from
  {
    if from + 1 >= |s| then None
    else if NumberStartsAt(s, from) then Some(from)
    else NumberStartFrom(s, from + 1)
  }

  /**
   * The text of the leftmost match of `(\d[\d,]+)` in `s` (greedy), as
   * `re.search(r'(\d[\d,]+)', s).group(1)`.
   */
  function FirstNumber(s: string): (r: Option<string>)
    ensures r.Some? ==> |r.value| >= 2 && IsDigit(r.value[0])
    ensures r.Some? ==> forall k :: 0 <= k < |r.value| ==> IsDigitOrComma(r.value[k])
    ensures r.Some? <==> exists i :: 0 <= i < |s| && NumberStartsAt(s, i)
    ensures r.Some? ==> exists i: nat :: (NumberStartsAt(s, i) && IsAt(s, r.value, i) &&
      (forall j :: 0 <= j < i ==> !NumberStartsAt(s, j)) &&
      (i + |r.value| < |s| ==> !IsDigitOrComma(s[i + |r.value|])))
  {
    match NumberStartFrom(s, 0)
    case None => None
    case Some(i) =>
      var e := RunEnd(s, i + 1);
      assert IsAt(s, s[i..e], i);
      Some(s[i..e])
  }

  /** Arabic-Indic digits are digits to `\d`: `٩٠,٠٠٠` is found as a number. */
  lemma ArabicIndicNumber()
    ensures FirstNumber("> \U{669}\U{660},\U{660}\U{660}\U{660}") == Some("\U{669}\U{660},\U{660}\U{660}\U{660}")
  {
    var s := "> \U{669}\U{660},\U{660}\U{660}\U{660}";
    assert IsOtherDigitZero(0x660);
    assert IsDigit('\U{669}') && IsDigit('\U{660}');
    assert !NumberStartsAt(s, 0) && !NumberStartsAt(s, 1) && NumberStartsAt(s, 2);
    assert NumberStartFrom(s, 0) == Some(2);
    assert RunEnd(s, 3) == |s|;
    assert FirstNumber(s) == Some(s[2..|s|]);
    assert s[2..|s|] == "\U{669}\U{660},\U{660}\U{660}\U{660}";
  }

  /** `s.replace(c, '')` for one character. */
  function Remove(s: string, c: char): (r: string)
    ensures c !in r
    ensures forall x :: x != c ==> (x in r <==> x in s)
  {
    if s == [] then [] else (if s[0] == c then [] else [s[0]]) + Remove(s[1..], c)
  }

  /** A matched number with its commas removed is a non-empty run of digits. */
  lemma NumberWithoutCommas(s: string)
    requires FirstNumber(s).Some?
    ensures var t := Remove(FirstNumber(s).value, ',');
      |t| > 0 && forall k :: 0 <= k < |t| ==> IsDigit(t[k])
  {
    var n := FirstNumber(s).value;
    var t := Remove(n, ',');
    assert n[0] in t;
    forall k | 0 <= k < |t|
      ensures IsDigit(t[k])
    {
      assert t[k] in n;
    }
  }

  function DigitChar(d: nat): (c: char)
    requires d < 10
    ensures IsDigit(c)
  {
    ('0' as int + d) as char
  }

  /** Decimal rendering of a natural number, as `str(n)`. */
  function NatToString(n: nat): (r: string)
    ensures |r| >= 1
    ensures forall k :: 0 <= k < |r| ==> IsDigit(r[k])
    decreases n
  {
    if n < 10 then [DigitChar(n)] else NatToString(n / 10) + [DigitChar(n % 10)]
  }

  /** Decimal rendering of an integer, as `str(i)`. */
  function IntToString(i: int): string
  {
    if i < 0 then "-" + NatToString(-i) else NatToString(i)
  }

  // ---------------------------------------------------------------- braces

  function FirstIndexOf(s: string, c: char): (r: Option<nat>)
    ensures r.Some? ==> r.value < |s| && s[r.value] == c && forall k :: 0 <= k < r.value ==> s[k] != c
    ensures r.None? ==> c !in s
  {
    if s == [] then None
    else if s[0] == c then Some(0)
    else match FirstIndexOf(s[1..], c)
      case None => None
      case Some(k) => Some(k + 1)
  }

  function LastIndexOf(s: string, c: char): (r: Option<nat>)
    ensures r.Some? ==> r.value < |s| && s[r.value] == c && forall k :: r.value < k < |s| ==> s[k] != c
    ensures r.None? ==> c !in s
  {
    if s == [] then None
    else if s[|s| - 1] == c then Some(|s| - 1)
    else LastIndexOf(s[..|s| - 1], c)
  }

  /**
   * The match of `re.search(r'\{.*\}', s, re.DOTALL)`: from the first `{`
   * to the last `}`, when some `{` comes before some `}`.
   */
  function BraceSpan(s: string): (r: Option<string>)
    ensures r.Some? ==> |r.value| >= 2 && r.value[0] == '{' && r.value[|r.value| - 1] == '}'
    ensures r.Some? ==> exists i: nat :: (IsAt(s, r.value, i) &&
      (forall k :: 0 <= k < i ==> s[k] != '{') &&
      (forall k :: i + |r.value| <= k < |s| ==> s[k] != '}'))
    ensures r.Some? <==> exists i, j :: 0 <= i < j < |s| && s[i] == '{' && s[j] == '}'
  {
    match (FirstIndexOf(s, '{'), LastIndexOf(s, '}'))
    case (Some(i), Some(j)) =>
      if i < j then
        assert IsAt(s, s[i..j + 1], i);
        Some(s[i..j + 1])
      else None
    case _ => None
  }
}
