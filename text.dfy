/** The JavaScript string and path built-ins the transcribers rely on:
    `String.prototype.trim`, `endsWith`, `Array.prototype.find`, `indexOf`,
    `replace` with a string pattern, and POSIX `path.extname`. */
module Text {
  import opened Common

  /** The characters `String.prototype.trim` removes: ECMAScript WhiteSpace
      and LineTerminator code points. */
  predicate IsJsWhitespace(c: char) {
    var n := c as int;
    n == 0x09 || n == 0x0A || n == 0x0B || n == 0x0C || n == 0x0D || n == 0x20
    || n == 0xA0 || n == 0x1680 || (0x2000 <= n <= 0x200A) || n == 0x2028
    || n == 0x2029 || n == 0x202F || n == 0x205F || n == 0x3000 || n == 0xFEFF
  }

  /** Every character of `s` is whitespace. */
  predicate AllWhitespace(s: string) {
    forall i :: 0 <= i < |s| ==> IsJsWhitespace(s[i])
  }

  /** A whitespace character in front of an all-whitespace string keeps
      it all whitespace. */
  lemma WhitespaceCons(s: string, k: nat)
    requires 1 <= k <= |s| && IsJsWhitespace(s[0]) && AllWhitespace(s[1..k])
    ensures AllWhitespace(s[..k])
  {
    forall i | 1 <= i < k
      ensures IsJsWhitespace(s[..k][i])
    {
      assert s[..k][i] == s[1..k][i - 1];
    }
  }

  /** An all-whitespace string followed by a whitespace character stays
      all whitespace. */
  lemma WhitespaceSnoc(s: string, k: nat)
    requires k < |s| && IsJsWhitespace(s[|s| - 1]) && AllWhitespace(s[k..|s| - 1])
    ensures AllWhitespace(s[k..])
  {
    forall i | 0 <= i < |s| - 1 - k
      ensures IsJsWhitespace(s[k..][i])
    {
      assert s[k..][i] == s[k..|s| - 1][i];
    }
  }

  /** `s` with its leading whitespace removed. */
  function TrimStart(s: string): (r: string)
    ensures |r| <= |s| && r == s[|s| - |r|..]
    ensures AllWhitespace(s[..|s| - |r|])
    ensures r == "" || !IsJsWhitespace(r[0])
  {
    if s == [] || !IsJsWhitespace(s[0]) then s
    else
      var r := TrimStart(s[1..]);
      assert s[1..][..|s| - 1 - |r|] == s[1..|s| - |r|];
      WhitespaceCons(s, |s| - |r|);
      r
  }

  /** `s` with its trailing whitespace removed. */
  function TrimEnd(s: string): (r: string)
    ensures |r| <= |s| && r == s[..|r|]
    ensures AllWhitespace(s[|r|..])
    ensures r == "" || !IsJsWhitespace(r[|r| - 1])
  {
    if s == [] || !IsJsWhitespace(s[|s| - 1]) then s
    else
      var r := TrimEnd(s[..|s| - 1]);
      assert s[..|s| - 1][|r|..] == s[|r|..|s| - 1];
      WhitespaceSnoc(s, |r|);
      r
  }

  /** `s.trim()`. */
  function Trim(s: string): string {
    TrimEnd(TrimStart(s))
  }

  /** `!s.trim()`: the string is empty once trimmed. */
  predicate IsBlank(s: string) {
    Trim(s) == ""
  }

  /** A string is blank exactly when it consists of whitespace only. */
  lemma BlankIffAllWhitespace(s: string)
    ensures IsBlank(s) <==> AllWhitespace(s)
  {
  }

  /** `s.endsWith(suffix)`. */
  predicate EndsWith(s: string, suffix: string) {
    |suffix| <= |s| && s[|s| - |suffix|..] == suffix
  }

  /** `names.find((f) => f.endsWith(suffix))`: the first name with the
      suffix, or nothing when no name has it. */
  function FirstEndingWith(names: seq<string>, suffix: string): (r: Option<string>)
    ensures r.None? <==> forall i :: 0 <= i < |names| ==> !EndsWith(names[i], suffix)
    ensures forall i :: 0 <= i < |names| && EndsWith(names[i], suffix)
              && (forall j :: 0 <= j < i ==> !EndsWith(names[j], suffix))
              ==> r == Some(names[i])
  {
    if names == [] then None
    else if EndsWith(names[0], suffix) then Some(names[0])
    else
      var r := FirstEndingWith(names[1..], suffix);
      assert forall i :: 1 <= i < |names| ==> names[i] == names[1..][i - 1];
      r
  }

  /** `pat` occurs in `s` at position `i`. */
  predicate OccursAt(s: string, pat: string, i: int) {
    0 <= i && i + |pat| <= |s| && s[i..i + |pat|] == pat
  }

  /** `s.indexOf(pat)`: the first position at which `pat` occurs, or
      nothing (JavaScript's -1). The empty pattern occurs at 0. */
  function IndexOf(s: string, pat: string): (r: Option<nat>)
    ensures r.Some? ==> OccursAt(s, pat, r.value)
    ensures r.Some? ==> forall j :: 0 <= j < r.value ==> !OccursAt(s, pat, j)
    ensures r.None? ==> forall j :: 0 <= j <= |s| ==> !OccursAt(s, pat, j)
  {
    IndexFrom(s, pat, 0)
  }

  /** The first position from `k` on at which `pat` occurs, or nothing. */
  function IndexFrom(s: string, pat: string, k: nat): (r: Option<nat>)
    ensures r.Some? ==> k <= r.value && OccursAt(s, pat, r.value)
    ensures r.Some? ==> forall j :: k <= j < r.value ==> !OccursAt(s, pat, j)
    ensures r.None? ==> forall j :: k <= j <= |s| ==> !OccursAt(s, pat, j)
    decreases |s| - k
  {
    if |s| < k + |pat| then None
    else if s[k..k + |pat|] == pat then Some(k)
    else IndexFrom(s, pat, k + 1)
  }

  /** `s.replace(pat, rep)` with a string pattern and a replacement without
      `$` (JavaScript expands `$&`, `$$` and the like in a replacement
      string; this function does not): only the first occurrence is
      replaced; `s` is returned unchanged when `pat` does not occur. */
  function ReplaceFirst(s: string, pat: string, rep: string): (r: string)
    ensures IndexOf(s, pat).None? ==> r == s
    ensures IndexOf(s, pat).Some? ==>
              var i := IndexOf(s, pat).value;
              |r| == |s| - |pat| + |rep|
              && r[..i] == s[..i] && r[i..i + |rep|] == rep && r[i + |rep|..] == s[i + |pat|..]
  {
    match IndexOf(s, pat)
    case None => s
    case Some(i) => s[..i] + rep + s[i + |pat|..]
  }

  /** The position of the last `c` in `s`, or nothing. */
  function LastIndexOfChar(s: string, c: char): (r: Option<nat>)
    ensures r.Some? ==> r.value < |s| && s[r.value] == c
    ensures r.Some? ==> forall j :: r.value < j < |s| ==> s[j] != c
    ensures r.None? ==> forall j :: 0 <= j < |s| ==> s[j] != c
  {
    if s == [] then None
    else if s[|s| - 1] == c then Some(|s| - 1)
    else LastIndexOfChar(s[..|s| - 1], c)
  }

  /** The last component of a POSIX path: what follows its last `/`. */
  function Basename(p: string): (r: string)
    ensures forall j :: 0 <= j < |r| ==> r[j] != '/'
    ensures EndsWith(p, r)
    ensures |r| == |p| || p[|p| - |r| - 1] == '/'
  {
    match LastIndexOfChar(p, '/')
    case None => p
    case Some(i) => p[i + 1..]
  }

  /** POSIX `path.extname(p)`: the last component from its last `.` on;
      empty when that component has no `.`, when its only `.` that counts is
      its first character (a dot file such as `.env`), or when it is `..`. */
  function ExtName(p: string): (r: string)
    ensures r != "" <==> (exists d :: 0 < d < |Basename(p)| && Basename(p)[d] == '.') && Basename(p) != ".."
    ensures r != "" ==> r[0] == '.' && EndsWith(p, r)
    ensures r != "" ==> forall j :: 1 <= j < |r| ==> r[j] != '.' && r[j] != '/'
  {
    var b := Basename(p);
    match LastIndexOfChar(b, '.')
    case None => ""
    case Some(d) =>
      if d == 0 || b == ".." then ""
      else
        assert b[d] == '.';
        b[d..]
  }
}
