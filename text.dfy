/** Python string and path operations, as the job pipeline uses them. */
module Text {

  predicate StartsWith(s: string, p: string) {
    |p| <= |s| && s[..|p|] == p
  }

  predicate EndsWith(s: string, p: string) {
    |p| <= |s| && s[|s| - |p|..] == p
  }

  /** Python's `p in s` on strings: `p` occurs somewhere in `s`. */
  predicate Contains(s: string, p: string)
    decreases |s|
  {
    StartsWith(s, p) || (s != [] && Contains(s[1..], p))
  }

  /** An occurrence of a non-empty `p` brings its first character into `s`. */
  lemma {:induction false} ContainsFirstChar(s: string, p: string)
    requires p != [] && Contains(s, p)
    ensures p[0] in s
    decreases |s|
  {
    if StartsWith(s, p) {
      assert s[0] == p[0];
    } else {
      ContainsFirstChar(s[1..], p);
    }
  }

  function LowerChar(c: char): char {
    if 'A' <= c <= 'Z' then (c as int + 32) as char else c
  }

  /** `str.lower()` restricted to ASCII letters. */
  function Lower(s: string): string {
    seq(|s|, i requires 0 <= i < |s| => LowerChar(s[i]))
  }

  /** `s.replace(pat, rep)`: every non-overlapping occurrence of `pat`, scanned left to right, is replaced. */
  function Replace(s: string, pat: string, rep: string): string
    requires pat != []
    decreases |s|
  {
    if |s| < |pat| then s
    else if s[..|pat|] == pat then rep + Replace(s[|pat|..], pat, rep)
    else [s[0]] + Replace(s[1..], pat, rep)
  }

  lemma {:induction false} ReplaceAbsent(s: string, pat: string, rep: string)
    requires pat != [] && !Contains(s, pat)
    ensures Replace(s, pat, rep) == s
    decreases |s|
  {
    if |s| >= |pat| {
      assert !StartsWith(s, pat);
      ReplaceAbsent(s[1..], pat, rep);
      assert [s[0]] + s[1..] == s;
    }
  }

  /** No proper prefix of `p` is also a suffix of it, so two occurrences of `p` never overlap. */
  predicate Borderless(p: string) {
    forall k :: 0 < k < |p| ==> p[..k] != p[|p| - k..]
  }

  /** `s + pat` does not start with `pat` when `s` is non-empty and holds no occurrence of a borderless `pat`. */
  lemma NoEarlyMatch(s: string, pat: string)
    requires s != [] && pat != [] && Borderless(pat) && !Contains(s, pat)
    ensures (s + pat)[..|pat|] != pat
  {
    var t := s + pat;
    assert !StartsWith(s, pat);
    if |s| >= |pat| {
      assert t[..|pat|] == s[..|pat|];
    } else {
      var k := |pat| - |s|;
      assert t[..|pat|] == s + pat[..k];
      assert t[..|pat|][|s|..] == pat[..k];
      assert pat[..k] != pat[|pat| - k..];
    }
  }

  /** Replacing a borderless pattern that occurs only at the very end rewrites just that ending. */
  lemma {:induction false} ReplaceLast(s: string, pat: string, rep: string)
    requires pat != [] && Borderless(pat) && !Contains(s, pat)
    ensures Replace(s + pat, pat, rep) == s + rep
    decreases |s|
  {
    var t := s + pat;
    if s == [] {
      assert t == pat;
      assert t[|pat|..] == [];
    } else {
      NoEarlyMatch(s, pat);
      assert Replace(t, pat, rep) == [t[0]] + Replace(t[1..], pat, rep);
      ReplaceLast(s[1..], pat, rep);
      assert t[1..] == s[1..] + pat;
    }
  }

  lemma Mp4Borderless()
    ensures Borderless(".mp4")
  {
    var p := ".mp4";
    forall k | 0 < k < |p| ensures p[..k] != p[|p| - k..] {
      assert p[..k][0] == '.';
      assert p[|p| - k..][0] != '.';
    }
  }

  /** Index of the last '/' in `p`, or -1 when there is none. */
  function LastSlash(p: string): (i: int)
    ensures -1 <= i < |p|
    ensures i >= 0 ==> p[i] == '/'
    ensures forall j :: i < j < |p| ==> p[j] != '/'
    decreases |p|
  {
    if p == [] then -1
    else if p[|p| - 1] == '/' then |p| - 1
    else LastSlash(p[..|p| - 1])
  }

  /** `os.path.basename`. */
  function Basename(p: string): string {
    p[LastSlash(p) + 1..]
  }

  /** `Path(p).parent` for a path without redundant separators. */
  function Parent(p: string): string {
    var i := LastSlash(p);
    if i < 0 then "." else if i == 0 then "/" else p[..i]
  }

  /** `os.path.join(a, b)` with two arguments. */
  function OsJoin(a: string, b: string): string {
    if StartsWith(b, "/") then b
    else if a == [] || EndsWith(a, "/") then a + b
    else a + "/" + b
  }

  /** `str(Path(dir) / name)` for a relative `name`. */
  function PathJoin(dir: string, name: string): string {
    if dir == "." then name
    else if EndsWith(dir, "/") then dir + name
    else dir + "/" + name
  }

  /** A directory as `tempfile.mkdtemp` returns it: absolute, with no trailing separator. */
  predicate AbsoluteDir(d: string) {
    |d| > 1 && d[0] == '/' && d[|d| - 1] != '/'
  }

  /** A file joined into an absolute directory has that directory as its parent and its own name as basename. */
  lemma {:induction false} JoinSplits(dir: string, name: string)
    requires AbsoluteDir(dir) && name != [] && '/' !in name
    ensures OsJoin(dir, name) == dir + "/" + name
    ensures Parent(OsJoin(dir, name)) == dir
    ensures Basename(OsJoin(dir, name)) == name
  {
    var p := dir + "/" + name;
    assert !StartsWith(name, "/") by { assert name[0] != '/'; }
    assert !EndsWith(dir, "/");
    assert p[|dir|] == '/';
    assert forall j :: |dir| < j < |p| ==> p[j] == name[j - |dir| - 1];
    assert forall j :: |dir| < j < |p| ==> p[j] != '/';
    assert LastSlash(p) == |dir|;
    assert p[..|dir|] == dir;
    assert p[|dir| + 1..] == name;
  }

  lemma ConcatAssoc(a: string, b: string, c: string)
    ensures a + (b + c) == a + b + c
  { }

  /** `pathlib` places a new name under an absolute directory with exactly one separator. */
  lemma PathJoinAbsolute(dir: string, name: string)
    requires AbsoluteDir(dir)
    ensures PathJoin(dir, name) == dir + "/" + name
  {
    assert dir != ".";
    assert !EndsWith(dir, "/");
  }

  function DigitChar(d: nat): char
    requires d < 10
  {
    "0123456789"[d]
  }

  function NatString(n: nat): (r: string)
    ensures r != []
    decreases n
  {
    if n < 10 then [DigitChar(n)] else NatString(n / 10) + [DigitChar(n % 10)]
  }

  /** `str(n)` for a Python int. */
  function IntString(n: int): string {
    if n < 0 then "-" + NatString(-n) else NatString(n)
  }

  /** `sep.join(parts)`. */
  function JoinWith(sep: string, parts: seq<string>): string
    decreases |parts|
  {
    if parts == [] then ""
    else if |parts| == 1 then parts[0]
    else parts[0] + sep + JoinWith(sep, parts[1..])
  }
}
