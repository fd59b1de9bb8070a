/**
 Integers as text: how the source writes them into attribute paths and storage keys, and how it
 reads them back. Python's `int()` and `str.strip()` are modelled on ASCII text.
 */
module Decimal {
  import opened Containers

  function DigitChar(d: nat): char
    requires d < 10
  {
    "0123456789"[d]
  }

  predicate IsDigit(c: char) {
    '0' <= c <= '9'
  }

  function FormatNat(n: nat): (s: string)
    ensures s != [] && forall c :: c in s ==> IsDigit(c)
  {
    if n < 10 then [DigitChar(n)] else FormatNat(n / 10) + [DigitChar(n % 10)]
  }

  /** `str(n)`. */
  function Format(n: int): (s: string)
    ensures s != [] && forall c :: c in s ==> IsDigit(c) || c == '-'
  {
    if n < 0 then "-" + FormatNat(-n) else FormatNat(n)
  }

  /** The ASCII characters that `int` passes over at both ends. */
  const BLANKS := " \t\n\r\U{000b}\U{000c}"

  /** The ASCII characters that `strip` removes at both ends: these and the four separators. */
  const SPACES := BLANKS + "\U{001c}\U{001d}\U{001e}\U{001f}"

  function Strip(s: string, spaces: string): string {
    if s != [] && s[0] in spaces then Strip(s[1..], spaces)
    else if s != [] && s[|s| - 1] in spaces then Strip(s[..|s| - 1], spaces)
    else s
  }

  /** Digits with single underscores between them, as `int()` accepts. */
  predicate IsDigits(s: string) {
    && s != [] && IsDigit(s[0]) && IsDigit(s[|s| - 1])
    && (forall i :: 0 <= i < |s| ==> IsDigit(s[i]) || s[i] == '_')
    && (forall i {:trigger s[i]} :: 0 <= i < |s| - 1 && s[i] == '_' ==> s[i + 1] != '_')
  }

  function Value(s: string): int {
    if s == [] then 0
    else if s[|s| - 1] == '_' then Value(s[..|s| - 1])
    else 10 * Value(s[..|s| - 1]) + (s[|s| - 1] as int - '0' as int)
  }

  /** `int(text)`, `None` for a ValueError. */
  function ParseInt(text: string): Option<int> {
    var s := Strip(text, BLANKS);
    var signed := s != [] && (s[0] == '-' || s[0] == '+');
    var digits := if signed then s[1..] else s;
    if !IsDigits(digits) then None
    else Some(if signed && s[0] == '-' then -Value(digits) else Value(digits))
  }

  lemma {:induction false} ValueOfFormat(n: nat)
    ensures Value(FormatNat(n)) == n
  {
    var s := FormatNat(n);
    if n < 10 {
      assert s[..0] == [];
    } else {
      ValueOfFormat(n / 10);
      assert s[..|s| - 1] == FormatNat(n / 10) && s[|s| - 1] == DigitChar(n % 10);
    }
  }

  lemma DigitsOfFormat(n: nat)
    ensures IsDigits(FormatNat(n)) && IsDigit(FormatNat(n)[0]) && IsDigit(FormatNat(n)[|FormatNat(n)| - 1])
  {
    var s := FormatNat(n);
    assert forall i :: 0 <= i < |s| ==> s[i] in s;
  }

  lemma NothingToStrip(s: string, spaces: string)
    requires s != [] && s[0] !in spaces && s[|s| - 1] !in spaces
    ensures Strip(s, spaces) == s
  {
  }

  lemma DigitIsNoSpace(c: char)
    requires IsDigit(c)
    ensures c !in SPACES && c !in BLANKS && c != '-' && c != '+'
  {
  }

  lemma ParseDigits(s: string)
    requires IsDigits(s)
    ensures ParseInt(s) == Some(Value(s)) && ParseInt("-" + s) == Some(-Value(s))
  {
    var t := "-" + s;
    assert t[1..] == s && t[|t| - 1] == s[|s| - 1];
    DigitIsNoSpace(s[0]);
    DigitIsNoSpace(s[|s| - 1]);
    NothingToStrip(s, BLANKS);
    NothingToStrip(t, BLANKS);
  }

  /** Reading back what was written gives the same integer. */
  lemma {:induction false} ParseFormat(n: int)
    ensures ParseInt(Format(n)) == Some(n)
  {
    var m := if n < 0 then -n else n;
    ValueOfFormat(m);
    DigitsOfFormat(m);
    ParseDigits(FormatNat(m));
  }

  predicate AllIn(s: string, chars: string) {
    forall i :: 0 <= i < |s| ==> s[i] in chars
  }

  lemma {:induction false} StripPadding(before: string, s: string, after: string, spaces: string)
    requires AllIn(before, spaces) && AllIn(after, spaces)
    requires s != [] && s[0] !in spaces && s[|s| - 1] !in spaces
    ensures Strip(before + s + after, spaces) == s
    decreases |before| + |after|
  {
    var text := before + s + after;
    if before != [] {
      assert text[1..] == before[1..] + s + after;
      StripPadding(before[1..], s, after, spaces);
    } else if after != [] {
      assert text[..|text| - 1] == before + s + after[..|after| - 1];
      StripPadding(before, s, after[..|after| - 1], spaces);
    } else {
      assert text == s;
    }
  }

  /** Tab, line feed, vertical tab, form feed, carriage return and space. */
  predicate IsBlank(c: char) {
    9 <= c as int <= 13 || c as int == 32
  }

  lemma BlanksAreBlank(c: char)
    ensures c in BLANKS <==> IsBlank(c)
    ensures c in SPACES <==> IsBlank(c) || 28 <= c as int <= 31
  {
  }

  lemma ParseIgnoresPadding(before: string, s: string, after: string)
    requires AllIn(before, BLANKS) && AllIn(after, BLANKS)
    requires s != [] && s[0] !in BLANKS && s[|s| - 1] !in BLANKS
    ensures ParseInt(before + s + after) == ParseInt(s)
  {
    StripPadding(before, s, after, BLANKS);
    NothingToStrip(s, BLANKS);
  }

  lemma FormatHasNoBlanks(n: int)
    ensures Format(n)[0] !in BLANKS && Format(n)[|Format(n)| - 1] !in BLANKS
  {
    var s := Format(n);
    assert s[0] in s && s[|s| - 1] in s;
  }

  lemma ParsePlus(n: nat)
    ensures ParseInt("+" + Format(n)) == Some(n)
  {
    var t := "+" + Format(n);
    ValueOfFormat(n);
    DigitsOfFormat(n);
    assert t[1..] == Format(n) && t[|t| - 1] == FormatNat(n)[|FormatNat(n)| - 1];
    DigitIsNoSpace(t[|t| - 1]);
    NothingToStrip(t, BLANKS);
  }

  /** Blanks around the text do not matter. */
  lemma {:induction false} ParsePadded(before: string, n: int, after: string)
    requires forall c :: c in before || c in after ==> IsBlank(c)
    ensures ParseInt(before + Format(n) + after) == Some(n)
  {
    forall c | c in before || c in after ensures c in BLANKS {
      BlanksAreBlank(c);
    }
    FormatHasNoBlanks(n);
    ParseIgnoresPadding(before, Format(n), after);
    ParseFormat(n);
  }

  /** The separators 28 to 31 are no blanks: around a number they are an error. */
  lemma SeparatorsAreErrors(c: char, n: int)
    requires 28 <= c as int <= 31
    ensures ParseInt([c] + Format(n)) == None
  {
    var m, s := if n < 0 then -n else n, Format(n);
    DigitsOfFormat(m);
    BlanksAreBlank(c);
    NothingToStrip([c] + s, BLANKS);
  }

  lemma {:induction false} FormatIsInjective(a: int, b: int)
    requires Format(a) == Format(b)
    ensures a == b
  {
    ParseFormat(a);
    ParseFormat(b);
  }

  lemma FormatAvoids(n: int, c: char)
    requires !IsDigit(c) && c != '-'
    ensures c !in Format(n)
  {
  }

  // ----- splitting and joining -----

  /** `text.split(sep)`. */
  function Split(text: string, sep: char): (parts: seq<string>)
    ensures parts != []
  {
    if text == [] then [""]
    else
      var rest := Split(text[1..], sep);
      if text[0] == sep then [""] + rest else [[text[0]] + rest[0]] + rest[1..]
  }

  lemma {:induction false} SplitJoined(a: string, b: string, sep: char)
    requires sep !in a
    ensures Split(a, sep) == [a]
    ensures Split(a + [sep] + b, sep) == [a] + Split(b, sep)
  {
    var joined := a + [sep] + b;
    if a == [] {
      assert joined[1..] == b;
    } else {
      SplitJoined(a[1..], b, sep);
      assert joined[1..] == a[1..] + [sep] + b;
      assert [a[0]] + a[1..] == a;
    }
  }

  /** At least one digit and nothing else. */
  predicate IsGroup(part: string) {
    part != [] && forall i :: 0 <= i < |part| ==> IsDigit(part[i])
  }

  predicate AreGroups(parts: seq<string>) {
    forall i :: 0 <= i < |parts| ==> IsGroup(parts[i])
  }

  lemma GroupsFrom(s: string)
    requires |s| > 1 && IsDigit(s[0]) && s[1] != '_'
    ensures IsDigits(s) <==> IsDigits(s[1..])
  {
    var t := s[1..];
    assert s[|s| - 1] == t[|t| - 1];
    if IsDigits(s) {
      assert forall i :: 0 <= i < |t| ==> t[i] == s[i + 1];
      assert IsDigits(t);
    }
    if IsDigits(t) {
      assert forall i :: 1 <= i < |s| ==> s[i] == t[i - 1];
    }
  }

  lemma GroupsAfter(s: string)
    requires |s| > 1 && IsDigit(s[0]) && s[1] == '_'
    ensures IsDigits(s) <==> IsDigits(s[2..])
  {
    var t := s[2..];
    assert forall i :: 0 <= i < |t| ==> t[i] == s[i + 2];
    assert forall i :: 2 <= i < |s| ==> s[i] == t[i - 2];
  }

  lemma NoGroupsWithoutADigit(s: string)
    requires s == [] || !IsDigit(s[0])
    ensures !AreGroups(Split(s, '_'))
  {
    var first := Split(s, '_')[0];
    assert first == [] || first[0] == s[0];
    assert !IsGroup(first);
  }

  lemma GroupsOf(first: string, rest: seq<string>)
    ensures AreGroups([first] + rest) <==> IsGroup(first) && AreGroups(rest)
  {
    var parts := [first] + rest;
    assert parts[0] == first;
    assert forall i :: 0 <= i < |rest| ==> rest[i] == parts[i + 1];
  }

  lemma LongerGroup(c: char, part: string)
    requires IsDigit(c) && part != []
    ensures IsGroup([c] + part) <==> IsGroup(part)
  {
    assert forall i :: 0 <= i < |part| ==> part[i] == ([c] + part)[i + 1];
  }

  lemma GroupsMore(s: string)
    requires |s| > 1 && IsDigit(s[0]) && s[1] != '_'
    ensures AreGroups(Split(s, '_')) <==> AreGroups(Split(s[1..], '_'))
  {
    var rest := Split(s[1..], '_');
    assert rest[0] != [] by { assert s[1..][0] != '_'; }
    assert Split(s, '_') == [[s[0]] + rest[0]] + rest[1..] && rest == [rest[0]] + rest[1..];
    LongerGroup(s[0], rest[0]);
    GroupsOf([s[0]] + rest[0], rest[1..]);
    GroupsOf(rest[0], rest[1..]);
  }

  lemma GroupsMoreAfter(s: string)
    requires |s| > 1 && IsDigit(s[0]) && s[1] == '_'
    ensures AreGroups(Split(s, '_')) <==> AreGroups(Split(s[2..], '_'))
  {
    assert s == [s[0]] + ['_'] + s[2..];
    SplitJoined([s[0]], s[2..], '_');
    GroupsOf([s[0]], Split(s[2..], '_'));
  }

  /** What is accepted as digits: non-empty groups of them with one underscore between two groups. */
  lemma {:induction false} DigitsAreGroups(s: string)
    ensures IsDigits(s) <==> AreGroups(Split(s, '_'))
    decreases |s|
  {
    if s == [] || !IsDigit(s[0]) {
      NoGroupsWithoutADigit(s);
    } else if |s| == 1 {
      SplitJoined(s, "", '_');
    } else if s[1] == '_' {
      GroupsAfter(s);
      GroupsMoreAfter(s);
      DigitsAreGroups(s[2..]);
    } else {
      GroupsFrom(s);
      GroupsMore(s);
      DigitsAreGroups(s[1..]);
    }
  }

  lemma LastSeparator(a: string, x: string, sep: char)
    requires sep !in x
    ensures var joined := a + [sep] + x;
            joined[|a|] == sep && forall i :: |a| < i < |joined| ==> joined[i] != sep
  {
    var joined := a + [sep] + x;
    assert forall i :: |a| < i < |joined| ==> joined[i] == x[i - |a| - 1] && x[i - |a| - 1] in x;
  }

  /** A prefix, a separator and a suffix free of the separator determine both parts. */
  lemma {:induction false} JoinIsInjective(a: string, x: string, b: string, y: string, sep: char)
    requires sep !in x && sep !in y
    requires a + [sep] + x == b + [sep] + y
    ensures a == b && x == y
  {
    var left, right := a + [sep] + x, b + [sep] + y;
    LastSeparator(a, x, sep);
    LastSeparator(b, y, sep);
    assert |a| == |b|;
    assert left[..|a|] == a && right[..|b|] == b;
    assert left[|a| + 1..] == x && right[|b| + 1..] == y;
  }

  /** An underscore between the groups does not change the number. */
  lemma {:induction false} UnderscoresDoNotCount(a: string, b: string)
    ensures Value(a + "_" + b) == Value(a + b)
    decreases |b|
  {
    var joined, plain := a + "_" + b, a + b;
    if b == [] {
      assert joined[..|joined| - 1] == a && plain == a;
    } else {
      var c := b[..|b| - 1];
      assert joined[..|joined| - 1] == a + "_" + c && plain[..|plain| - 1] == a + c;
      UnderscoresDoNotCount(a, c);
    }
  }

  // ----- attribute paths -----

  datatype Path = Path(endpoint: int, cluster: int, attribute: int)

  /** The canonical text of an attribute path. */
  function PathText(p: Path): string {
    Format(p.endpoint) + "/" + Format(p.cluster) + "/" + Format(p.attribute)
  }

  function ParsePath(text: string): Option<Path> {
    var parts := Split(Strip(text, SPACES), '/');
    if |parts| != 3 then None else
    match (ParseInt(parts[0]), ParseInt(parts[1]), ParseInt(parts[2]))
    case (Some(e), Some(c), Some(a)) => Some(Path(e, c, a))
    case _ => None
  }

  lemma SplitPath(p: Path)
    ensures Split(PathText(p), '/') == [Format(p.endpoint), Format(p.cluster), Format(p.attribute)]
  {
    var e, c, a := Format(p.endpoint), Format(p.cluster), Format(p.attribute);
    FormatAvoids(p.endpoint, '/');
    FormatAvoids(p.cluster, '/');
    FormatAvoids(p.attribute, '/');
    assert PathText(p) == e + ['/'] + (c + ['/'] + a);
    SplitJoined(e, c + ['/'] + a, '/');
    SplitJoined(c, a, '/');
    SplitJoined(a, "", '/');
  }

  lemma PathTextIsTrimmed(p: Path)
    ensures var text := PathText(p); text != [] && text[0] !in SPACES && text[|text| - 1] !in SPACES
  {
    var e, a, text := Format(p.endpoint), Format(p.attribute), PathText(p);
    assert text[0] == e[0] && e[0] in e;
    assert text[|text| - 1] == a[|a| - 1] && a[|a| - 1] in a;
  }

  /** Canonical paths parse to themselves, so distinct paths have distinct texts. */
  lemma {:induction false} ParsePathText(p: Path)
    ensures ParsePath(PathText(p)) == Some(p)
  {
    PathTextIsTrimmed(p);
    NothingToStrip(PathText(p), SPACES);
    SplitPath(p);
    ParseFormat(p.endpoint);
    ParseFormat(p.cluster);
    ParseFormat(p.attribute);
  }

  /** Blanks and separators around the text of a path do not matter. */
  lemma {:induction false} ParsePaddedPath(before: string, p: Path, after: string)
    requires forall c :: c in before || c in after ==> IsBlank(c) || 28 <= c as int <= 31
    ensures ParsePath(before + PathText(p) + after) == Some(p)
  {
    forall c | c in before || c in after ensures c in SPACES {
      BlanksAreBlank(c);
    }
    PathTextIsTrimmed(p);
    StripPadding(before, PathText(p), after, SPACES);
    NothingToStrip(PathText(p), SPACES);
    ParsePathText(p);
  }
}
