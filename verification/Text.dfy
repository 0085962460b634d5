/** Strings as the tools see them: decimal numerals, dotted names and the identifier grammars. */
module Text {

  const NONE := "NONE"

  predicate IsDigit(c: char) { '0' <= c <= '9' }

  predicate IsHexDigit(c: char) { IsDigit(c) || 'a' <= c <= 'f' }

  predicate IsLetter(c: char) { 'a' <= c <= 'z' || 'A' <= c <= 'Z' }

  /** The characters that Python's `str.strip` removes. */
  predicate IsSpace(c: char) {
    || '\U{09}' <= c <= '\U{0D}' || '\U{1C}' <= c <= '\U{20}'
    || c in {'\U{85}', '\U{A0}', '\U{1680}', '\U{2028}', '\U{2029}', '\U{202F}', '\U{205F}', '\U{3000}'}
    || '\U{2000}' <= c <= '\U{200A}'
  }

  predicate StartsWith(s: string, head: string) { head <= s }

  predicate Contains(s: string, part: string) {
    exists i | 0 <= i <= |s| :: StartsWith(s[i..], part)
  }

  /** `[1-9]` followed by digits, where `extra` are the characters beyond `[0-9]` that count as digits. */
  predicate IsPositiveNumeral(s: string, extra: set<char>) {
    |s| > 0 && '1' <= s[0] <= '9' && forall i | 0 < i < |s| :: IsDigit(s[i]) || s[i] in extra
  }

  predicate IsIssueWith(s: string, extra: set<char>) {
    StartsWith(s, "#") && IsPositiveNumeral(s[1..], extra)
  }

  predicate IsIssue(s: string) { IsIssueWith(s, {}) }

  predicate IsIssueOrNone(s: string) { s == NONE || IsIssue(s) }

  predicate IsSha(s: string) { |s| == 40 && forall c | c in s :: IsHexDigit(c) }

  predicate IsShaOrNone(s: string) { s == NONE || IsSha(s) }

  predicate IsRun(s: string) { StartsWith(s, "run:") && IsPositiveNumeral(s[4..], {}) }

  predicate IsDeployment(s: string) {
    StartsWith(s, "deployment:") && IsPositiveNumeral(s[11..], {})
  }

  /** A non-empty trimmed line of at most `maximum` characters. */
  predicate IsLine(s: string, maximum: nat) {
    && 0 < |s| <= maximum
    && !IsSpace(s[0]) && !IsSpace(s[|s| - 1])
    && forall c | c in s :: c != '\n' && c != '\r'
  }

  /** A trimmed, non-empty line of any length. */
  predicate IsText(s: string) { IsLine(s, |s|) }

  /** `s[i..j]` is one whole component of a slashed path. */
  predicate IsComponent(s: string, i: nat, j: nat)
    requires i <= j <= |s|
  {
    (i == 0 || s[i - 1] == '/') && (j == |s| || s[j] == '/') && '/' !in s[i..j]
  }

  /** A canonical path inside a repository. */
  predicate IsRepositoryPath(s: string) {
    && s != "" && (forall c | c in s :: c !in {'\0', '\\', ':'})
    && forall i, j | 0 <= i <= j <= |s| && IsComponent(s, i, j) :: s[i..j] !in ["", ".", ".."]
  }

  predicate IsNameChar(c: char) { IsDigit(c) || IsLetter(c) || c in {'_', '.', '-'} }

  predicate IsName(s: string) { |s| > 0 && forall c | c in s :: IsNameChar(c) }

  predicate IsRepository(s: string) {
    exists i | 0 <= i < |s| :: s[i] == '/' && IsName(s[..i]) && IsName(s[i + 1..])
  }

  predicate IsSliceSuffix(s: string) {
    |s| >= 4 && StartsWith(s, "/S") && forall c | c in s[2..] :: IsDigit(c)
  }

  predicate IsSliceId(s: string) {
    exists i | 0 <= i < |s| :: IsName(s[..i]) && IsSliceSuffix(s[i..])
  }

  /** The position of the first `c`, or the length when there is none. */
  function Find(s: string, c: char): (i: nat)
    ensures i <= |s|
    ensures c !in s[..i]
    ensures i < |s| ==> s[i] == c
  {
    if s == [] || s[0] == c then 0 else 1 + Find(s[1..], c)
  }

  /** The parts of `s` between dots; never empty. */
  function Split(s: string): (parts: seq<string>)
    ensures |parts| > 0
    decreases |s|
  {
    var i := Find(s, '.');
    if i == |s| then [s] else [s[..i]] + Split(s[i + 1..])
  }

  predicate IsCoreNumber(s: string, extra: set<char>) { s == "0" || IsPositiveNumeral(s, extra) }

  predicate IsTagPart(s: string) {
    |s| > 0 && forall c | c in s :: IsDigit(c) || IsLetter(c) || c == '-'
  }

  predicate IsTag(s: string) { forall part | part in Split(s) :: IsTagPart(part) }

  /** `N.N.N`, then optionally `-` and tags, then optionally `+` and tags. */
  predicate IsSemverWith(s: string, extra: set<char>) {
    var plus := Find(s, '+');
    var head := s[..plus];
    var dash := Find(head, '-');
    && var numbers := Split(head[..dash]);
    && |numbers| == 3 && (forall n | n in numbers :: IsCoreNumber(n, extra))
    && (dash == |head| || IsTag(head[dash + 1..]))
    && (plus == |s| || IsTag(s[plus + 1..]))
  }

  predicate IsSemver(s: string) { IsSemverWith(s, {}) }

  predicate IsReleaseRef(s: string) { StartsWith(s, "release:v") && IsSemver(s[9..]) }

  predicate IsEventRef(s: string) {
    IsIssue(s) || IsSha(s) || IsRun(s) || IsDeployment(s) || IsReleaseRef(s)
  }

  /** The decimal numeral Python's `str` gives a non-negative integer. */
  function Decimal(n: nat): (s: string)
    ensures |s| > 0 && forall c | c in s :: IsDigit(c)
  {
    var last := [('0' as int + n % 10) as char];
    if n < 10 then last else Decimal(n / 10) + last
  }

  /** The number a decimal numeral denotes. */
  function Numeral(s: string): nat {
    if s == "" then 0
    else
      var last := s[|s| - 1];
      10 * Numeral(s[..|s| - 1]) + if IsDigit(last) then last as int - '0' as int else 0
  }

  lemma {:induction false} NumeralDecimal(n: nat)
    ensures Numeral(Decimal(n)) == n
  {
    var s := Decimal(n);
    if n < 10 {
      assert s[..|s| - 1] == "";
    } else {
      NumeralDecimal(n / 10);
      assert s[..|s| - 1] == Decimal(n / 10);
    }
  }

  lemma NoneIsNoIdentity()
    ensures !IsIssue(NONE) && !IsSha(NONE) && !IsSemver(NONE)
    ensures forall extra: set<char> :: !IsSemverWith(NONE, extra)
  {
    assert Find(NONE, '+') == 4 && Find(NONE, '-') == 4 && Find(NONE, '.') == 4 by {
      assert '+' !in NONE && '-' !in NONE && '.' !in NONE;
    }
    assert NONE[..4] == NONE;
    assert Split(NONE) == [NONE];
  }

  /** Splitting undoes joining: a dot between two strings splits them apart. */
  lemma {:induction false} SplitConcat(s: string, t: string)
    ensures Split(s + "." + t) == Split(s) + Split(t)
    decreases |s|
  {
    hide Find, Split;
    var i := Find(s, '.');
    JoinedAt(s, t, i);
    SplitStep(s + "." + t);
    SplitStep(s);
    if i == |s| {
      assert s[..i] == s;
    } else {
      SplitConcat(s[i + 1..], t);
      Regroup(s[..i], Split(s[i + 1..]), Split(t));
    }
  }

  lemma Regroup(first: string, middle: seq<string>, last: seq<string>)
    ensures [first] + (middle + last) == ([first] + middle) + last
  {
  }

  /** Where the first dot of a joined string is, and what is on its two sides. */
  lemma JoinedAt(s: string, t: string, i: nat)
    requires i == Find(s, '.')
    ensures i < |s + "." + t| && Find(s + "." + t, '.') == i && (s + "." + t)[..i] == s[..i]
    ensures (s + "." + t)[i + 1..] == if i < |s| then s[i + 1..] + "." + t else t
  {
    hide Find;
    FindJoined(s, t);
    JoinedSlices(s, t, i);
  }

  lemma JoinedSlices(s: string, t: string, i: nat)
    requires i <= |s|
    ensures (s + "." + t)[..i] == s[..i]
    ensures (s + "." + t)[i + 1..] == if i < |s| then s[i + 1..] + "." + t else t
  {
    var whole := s + "." + t;
    assert whole[..i] == s[..i];
    if i < |s| { assert whole[i + 1..] == s[i + 1..] + "." + t; } else { assert whole[i + 1..] == t; }
  }

  lemma FindJoined(s: string, t: string)
    ensures Find(s + "." + t, '.') == Find(s, '.')
  {
    var tail := "." + t;
    assert Find(tail, '.') == 0;
    hide Find;
    FindConcat(s, tail, '.');
    assert s + "." + t == s + tail;
    var i := Find(s, '.');
    if i == |s| { assert s[..i] == s; }
  }

  lemma SplitStep(s: string)
    ensures
      var i := Find(s, '.');
      Split(s) == if i == |s| then [s] else [s[..i]] + Split(s[i + 1..])
  {
    hide Find;
  }

  lemma {:induction false} FindConcat(s: string, t: string, c: char)
    ensures Find(s + t, c) == if c in s then Find(s, c) else |s| + Find(t, c)
  {
    if s == [] {
      assert s + t == t;
    } else if s[0] != c {
      assert (s + t)[1..] == s[1..] + t;
      FindConcat(s[1..], t, c);
    }
  }

  function LowerChar(c: char): char { if 'A' <= c <= 'Z' then (c as int + 32) as char else c }

  /** Case folding of the ASCII names the tools admit. */
  function Fold(s: string): string { seq(|s|, i requires 0 <= i < |s| => LowerChar(s[i])) }

  /** Strict order of strings by their characters. */
  predicate Before(a: string, b: string) {
    b != "" && (a == "" || a[0] < b[0] || (a[0] == b[0] && Before(a[1..], b[1..])))
  }

  /** Sorted without repetition. */
  predicate Ascending(names: seq<string>) { forall k, l | 0 <= k < l < |names| :: Before(names[k], names[l]) }
}
