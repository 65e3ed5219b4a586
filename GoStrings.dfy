/** The parts of Go's `strings` and `path/filepath` packages that the core
    relies on, stated over Dafny strings. */
module GoStrings {

  /** Lower-casing of one character (ASCII letters only). */
  function LowerChar(c: char): (l: char)
    ensures 'A' <= c <= 'Z' ==> l as int == c as int + 32
    ensures !('A' <= c <= 'Z') ==> l == c
  {
    if 'A' <= c <= 'Z' then (c as int + 32) as char else c
  }

  /** `strings.ToLower`, restricted to ASCII letters. */
  function ToLower(s: string): (r: string)
    ensures |r| == |s|
    ensures forall i :: 0 <= i < |s| ==> r[i] == LowerChar(s[i])
  {
    if s == [] then [] else [LowerChar(s[0])] + ToLower(s[1..])
  }

  /** `a` and `b` spell the same word when letter case is ignored. */
  predicate SameUpToCase(a: string, b: string) {
    |a| == |b| && forall i :: 0 <= i < |a| ==> LowerChar(a[i]) == LowerChar(b[i])
  }

  /** Lower-casing identifies exactly the strings that differ only in case. */
  lemma ToLowerIdentifiesCase(a: string, b: string)
    ensures ToLower(a) == ToLower(b) <==> SameUpToCase(a, b)
  {
  }

  /** Lower-casing twice is lower-casing once. */
  lemma ToLowerIdempotent(s: string)
    ensures ToLower(ToLower(s)) == ToLower(s)
  {
  }

  /** Lower-casing works character by character, so it distributes over concatenation. */
  lemma ToLowerAppend(a: string, b: string)
    ensures ToLower(a + b) == ToLower(a) + ToLower(b)
  {
  }

  /** Index of the first `c` in `s`, or -1 (`strings.IndexByte`). */
  function IndexOf(s: string, c: char): (i: int)
    ensures -1 <= i < |s|
    ensures i >= 0 ==> s[i] == c && c !in s[..i]
    ensures i < 0 <==> c !in s
  {
    if s == [] then -1
    else if s[0] == c then 0
    else
      var j := IndexOf(s[1..], c);
      if j < 0 then -1 else j + 1
  }

  /** `strings.SplitN(s, string(sep), 2)`: the whole string when `sep` does
      not occur, otherwise the text before and after its first occurrence. */
  function SplitN2(s: string, sep: char): (parts: seq<string>)
    ensures |parts| == 1 || |parts| == 2
    ensures |parts| == 1 <==> sep !in s
    ensures |parts| == 1 ==> parts[0] == s
    ensures |parts| == 2 ==> sep !in parts[0] && parts[0] + [sep] + parts[1] == s
  {
    var i := IndexOf(s, sep);
    if i < 0 then [s] else [s[..i], s[i + 1..]]
  }

  /** `sep` occurs in `s` starting at index `i`. */
  predicate OccursAt(s: string, sep: string, i: int) {
    0 <= i && i + |sep| <= |s| && s[i..i + |sep|] == sep
  }

  /** `strings.Split(s, sep)[0]`: the text before the first occurrence of
      `sep`, or all of `s` when there is none. */
  function Before(s: string, sep: string): (r: string)
    requires sep != []
    ensures r <= s
    ensures r == s || OccursAt(s, sep, |r|)
    ensures forall i :: 0 <= i < |r| ==> !OccursAt(s, sep, i)
    decreases |s|
  {
    if |s| < |sep| then s
    else if s[..|sep|] == sep then []
    else
      var rest := Before(s[1..], sep);
      assert forall i :: 1 <= i < 1 + |rest| ==> OccursAt(s, sep, i) == OccursAt(s[1..], sep, i - 1);
      assert rest == s[1..] ==> [s[0]] + rest == s;
      assert OccursAt(s[1..], sep, |rest|) ==> OccursAt(s, sep, 1 + |rest|);
      [s[0]] + rest
  }

  /** A path joined from a directory and a name (`filepath.Join`, without
      its cleaning of `.`, `..` and repeated separators). */
  function Join(dir: string, name: string): (p: string)
    ensures |p| == |dir| + 1 + |name|
    ensures p[..|dir|] == dir && p[|dir|] == '/' && p[|dir| + 1..] == name
  {
    dir + "/" + name
  }
}
