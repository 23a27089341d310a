/** `GetFilename`, identical in both loader variants, and the directory stripping
    `replace(/^.*[\\\/]/, '')` it shares with the physicstester image loader.  JavaScript's `.`
    does not match a line terminator, so both regular expressions work line by line. */
module Filenames {
  import opened Wrappers
  import opened Rube

  predicate IsLineTerminator(c: char) {
    c == '\n' || c == '\r' || c == '\U{2028}' || c == '\U{2029}'
  }

  /** The length of the first line of `s`: the index of its first line terminator, or `|s|`. */
  function LineEnd(s: string): (k: nat)
    ensures k <= |s|
    ensures forall i :: 0 <= i < k ==> !IsLineTerminator(s[i])
    ensures k < |s| ==> IsLineTerminator(s[k])
  {
    if s == [] || IsLineTerminator(s[0]) then 0 else 1 + LineEnd(s[1..])
  }

  /** The last index below `bound` holding one of `cs`. */
  function LastIndexBelow(t: string, cs: set<char>, bound: nat): (r: Option<nat>)
    requires bound <= |t|
    ensures r.Some? ==> r.value < bound && t[r.value] in cs
    ensures r.Some? ==> forall i :: r.value < i < bound ==> t[i] !in cs
    ensures r.None? ==> forall i :: 0 <= i < bound ==> t[i] !in cs
    decreases bound
  {
    if bound == 0 then None
    else if t[bound - 1] in cs then Some(bound - 1)
    else LastIndexBelow(t, cs, bound - 1)
  }

  /** The first index from `from` on holding `c`, given that `limit` holds it. */
  function FirstIndexFrom(t: string, c: char, from: nat, limit: nat): (j: nat)
    requires from <= limit < |t| && t[limit] == c
    ensures from <= j <= limit && t[j] == c
    ensures forall k :: from <= k < j ==> t[k] != c
    decreases limit - from
  {
    if t[from] == c then from else FirstIndexFrom(t, c, from + 1, limit)
  }

  // ---------------------------------------------------------------------------------------------
  // url.toString().match(/.*\/(.+?)\./)

  /** `/` at `i`, then at least one character, then `.` at `j`: a way for `.*\/(.+?)\.` to match
      inside one line `t`. */
  predicate IsMatch(t: string, i: int, j: int) {
    0 <= i && i + 2 <= j < |t| && t[i] == '/' && t[j] == '.'
  }

  /** The match backtracking picks: the greedy `.*` takes the last usable `/`, the lazy `(.+?)`
      then stops at the first `.` it can. */
  ghost predicate IsChosenMatch(t: string, i: int, j: int) {
    IsMatch(t, i, j) &&
    (forall i', j' :: IsMatch(t, i', j') ==> i' <= i) &&
    (forall j' :: IsMatch(t, i, j') ==> j <= j')
  }

  /** The capture group of the match inside one line, computed from the last `.` backwards. */
  function LineMatch(t: string): Option<string> {
    match LastIndexBelow(t, {'.'}, |t|)
    case None => None
    case Some(d) =>
      if d < 2 then None
      else
        match LastIndexBelow(t, {'/'}, d - 1)
        case None => None
        case Some(i) => Some(t[i + 1..FirstIndexFrom(t, '.', i + 2, d)])
  }

  /** The capture group of the leftmost match: the regular expression cannot cross a line
      terminator, so the first line that has a match supplies it. */
  function RegexMatch(s: string): Option<string>
    decreases |s|
  {
    var k := LineEnd(s);
    var m := LineMatch(s[..k]);
    if m.Some? || k == |s| then m else RegexMatch(s[k + 1..])
  }

  lemma LineMatchIsChosenMatch(t: string)
    ensures LineMatch(t).Some? <==> exists i, j :: IsMatch(t, i, j)
    ensures LineMatch(t).Some? ==>
              exists i, j :: IsChosenMatch(t, i, j) && LineMatch(t).value == t[i + 1..j]
  {
    match LastIndexBelow(t, {'.'}, |t|)
    case None =>
      assert forall i, j :: !IsMatch(t, i, j);
    case Some(d) =>
      if d < 2 {
        assert forall i, j :: !IsMatch(t, i, j);
      } else {
        match LastIndexBelow(t, {'/'}, d - 1)
        case None =>
          assert forall i, j :: !IsMatch(t, i, j);
        case Some(i) =>
          var j := FirstIndexFrom(t, '.', i + 2, d);
          assert IsMatch(t, i, j);
          forall i', j' | IsMatch(t, i', j') ensures i' <= i { assert t[j'] in {'.'}; assert t[i'] in {'/'}; }
          assert IsChosenMatch(t, i, j);
      }
  }

  // ---------------------------------------------------------------------------------------------
  // url.replace(/^.*[\\\/]/, '')

  const Separators: set<char> := {'/', '\\'}

  /** Removes everything up to the last `/` or `\` of the first line. */
  function StripDirectory(s: string): string {
    match LastIndexBelow(s, Separators, LineEnd(s))
    case None => s
    case Some(i) => s[i + 1..]
  }

  /** No `/` or `\` before the first line terminator. */
  ghost predicate CleanFirstLine(u: string) {
    forall i :: 0 <= i < LineEnd(u) ==> u[i] !in Separators
  }

  lemma {:induction false} LineEndOfSuffix(s: string, m: nat)
    requires m <= LineEnd(s)
    ensures LineEnd(s[m..]) == LineEnd(s) - m
  {
    if m > 0 {
      assert s[m..] == s[1..][m - 1..];
      LineEndOfSuffix(s[1..], m - 1);
    }
  }

  /** The stripped string is the longest suffix of the input whose first line holds no
      directory separator. */
  lemma StripDirectoryIsLongestCleanSuffix(s: string)
    ensures exists m :: 0 <= m <= |s| && StripDirectory(s) == s[m..] && CleanFirstLine(s[m..]) &&
                        forall m' :: 0 <= m' < m ==> !CleanFirstLine(s[m'..])
  {
    var k := LineEnd(s);
    match LastIndexBelow(s, Separators, k)
    case None =>
      assert s[0..] == s;
    case Some(i) =>
      LineEndOfSuffix(s, i + 1);
      forall m' | 0 <= m' < i + 1 ensures !CleanFirstLine(s[m'..]) {
        LineEndOfSuffix(s, m');
        assert s[m'..][i - m'] == s[i];
      }
      var u := s[i + 1..];
      assert CleanFirstLine(u) by {
        forall q | 0 <= q < LineEnd(u) ensures u[q] !in Separators {
          assert u[q] == s[i + 1 + q];
        }
      }
  }

  // ---------------------------------------------------------------------------------------------

  /** `GetFilename(url, includeExtension)`; a falsy url (absent or empty) gives the empty string. */
  function GetFilename(url: Option<string>, includeExtension: bool): string {
    if !Truthy(url) then ""
    else if includeExtension then
      var m := StripDirectory(url.value);
      if |m| > 1 then [m[1]] else ""
    else
      match RegexMatch(url.value)
      case None => ""
      case Some(c) => c
  }

  /** Without `includeExtension`, on a one-line url: the text between the last `/` that has a
      `.` at least two places after it and the first such `.`, or `''` when there is none. */
  lemma GetFilenameWithoutExtension(url: string)
    requires url != []
    requires forall i :: 0 <= i < |url| ==> !IsLineTerminator(url[i])
    ensures GetFilename(Some(url), false) == "" <==> forall i, j :: !IsMatch(url, i, j)
    ensures GetFilename(Some(url), false) != "" ==>
              exists i, j :: IsChosenMatch(url, i, j) && GetFilename(Some(url), false) == url[i + 1..j]
  {
    assert url[..LineEnd(url)] == url;
    LineMatchIsChosenMatch(url);
    if LineMatch(url).Some? {
      var i, j :| IsChosenMatch(url, i, j) && LineMatch(url).value == url[i + 1..j];
      assert |url[i + 1..j]| > 0;
    }
  }

  /** With `includeExtension`, the result is `m[1]` of the stripped string: its second
      character, or `''` when it is shorter than two. */
  lemma GetFilenameWithExtension(url: string)
    requires url != []
    ensures exists m :: 0 <= m <= |url| && CleanFirstLine(url[m..]) &&
              (forall m' :: 0 <= m' < m ==> !CleanFirstLine(url[m'..])) &&
              GetFilename(Some(url), true) == (if |url| - m > 1 then [url[m + 1]] else "")
  {
    StripDirectoryIsLongestCleanSuffix(url);
  }

  /** With `includeExtension`, as written: whenever the stripped name has two or more
      characters, the result is one character long and so never that name. */
  lemma WithExtensionKeepsOneCharacter(url: string)
    requires url != [] && |StripDirectory(url)| > 1
    ensures |GetFilename(Some(url), true)| == 1
    ensures GetFilename(Some(url), true) != StripDirectory(url)
    ensures GetFilename(Some(url), true) == [StripDirectory(url)[1]]
  {
  }

  /** `GetFilename('a/bc', true)` is `'c'`, not `'bc'`. */
  lemma WithExtensionCounterexample()
    ensures GetFilename(Some("a/bc"), true) == "c"
    ensures IntendedFilename(Some("a/bc"), true) == "bc"
  {
    var url := "a/bc";
    LineEndWithoutTerminator(url);
    LastIndexBelowIs(url, Separators, 4, 1);
    assert StripDirectory(url) == url[2..] == "bc";
  }

  lemma {:induction false} LineEndWithoutTerminator(s: string)
    requires forall i :: 0 <= i < |s| ==> !IsLineTerminator(s[i])
    ensures LineEnd(s) == |s|
  {
    if s != [] {
      LineEndWithoutTerminator(s[1..]);
    }
  }

  lemma {:induction false} LastIndexBelowIs(t: string, cs: set<char>, bound: nat, i: nat)
    requires i < bound <= |t| && t[i] in cs
    requires forall k :: i < k < bound ==> t[k] !in cs
    ensures LastIndexBelow(t, cs, bound) == Some(i)
  {
    if bound - 1 != i {
      LastIndexBelowIs(t, cs, bound - 1, i);
    }
  }

  /** `GetFilename` as it is evidently meant: with `includeExtension`, the url without its
      directory part; without it, the regular expression's capture group as before. */
  function IntendedFilename(url: Option<string>, includeExtension: bool): (r: string)
    ensures !includeExtension ==> r == GetFilename(url, false)
  {
    if !Truthy(url) then ""
    else if includeExtension then StripDirectory(url.value)
    else GetFilename(url, false)
  }

  /** The intended result with `includeExtension` is the longest suffix of the url whose first
      line holds no directory separator. */
  lemma IntendedFilenameWithExtension(url: string)
    requires url != []
    ensures exists m :: 0 <= m <= |url| && CleanFirstLine(url[m..]) &&
              (forall m' :: 0 <= m' < m ==> !CleanFirstLine(url[m'..])) &&
              IntendedFilename(Some(url), true) == url[m..]
  {
    StripDirectoryIsLongestCleanSuffix(url);
  }
}
