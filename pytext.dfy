/**
 * The pieces of Python's standard library that the backend uses to build
 * names and paths: `str(int)` for non-negative integers, `os.path.basename`,
 * `os.path.join` (POSIX), `pathlib.Path.stem`, `str.endswith`, `str.lower`
 * restricted to ASCII, and the first-space split that FastAPI's
 * `get_authorization_scheme_param` performs with `str.partition(" ")`.
 */
module PyText {

  // ---------------------------------------------------------------------
  // str(n) for n >= 0, and its inverse

  function DigitChar(d: nat): (c: char)
    requires d < 10
    ensures '0' <= c <= '9' && c as int - '0' as int == d
  {
    ('0' as int + d) as char
  }

  predicate IsDigits(s: string) {
    forall i :: 0 <= i < |s| ==> '0' <= s[i] <= '9'
  }

  /** Python's `str(n)` / f"{n}" for a non-negative integer: decimal, no leading zeros. */
  function NatToString(n: nat): (s: string)
    ensures |s| >= 1 && IsDigits(s)
    ensures n >= 10 ==> |s| >= 2
    decreases n
  {
    if n < 10 then [DigitChar(n)] else NatToString(n / 10) + [DigitChar(n % 10)]
  }

  /** Reads a string of decimal digits back as a number (the inverse of NatToString). */
  function ParseDecimal(s: string): nat
    requires IsDigits(s)
  {
    if s == [] then 0
    else ParseDecimal(s[..|s| - 1]) * 10 + (s[|s| - 1] as int - '0' as int)
  }

  lemma {:induction false} ParseNatToString(n: nat)
    ensures ParseDecimal(NatToString(n)) == n
    decreases n
  {
    if n >= 10 {
      var s := NatToString(n / 10);
      assert NatToString(n)[..|NatToString(n)| - 1] == s;
      ParseNatToString(n / 10);
    }
  }

  /** Different numbers print differently, so index-based names never collide. */
  lemma NatToStringInjective(a: nat, b: nat)
    ensures NatToString(a) == NatToString(b) <==> a == b
  {
    if NatToString(a) == NatToString(b) {
      ParseNatToString(a);
      ParseNatToString(b);
    }
  }

  // ---------------------------------------------------------------------
  // os.path.basename, os.path.join, pathlib.Path(p).stem

  /** `os.path.basename(p)`: everything after the last "/". */
  function Basename(p: string): (b: string)
    ensures '/' !in b
    ensures |b| <= |p| && p[|p| - |b|..] == b
    ensures |b| < |p| ==> p[|p| - |b| - 1] == '/'
  {
    if p == [] then []
    else if p[|p| - 1] == '/' then []
    else Basename(p[..|p| - 1]) + [p[|p| - 1]]
  }

  lemma BasenameOfName(name: string)
    requires '/' !in name
    ensures Basename(name) == name
  {
  }

  /** The basename of `dir/name` is `name` when `name` holds no "/". */
  lemma {:induction false} BasenameAfterSlash(dir: string, name: string)
    requires '/' !in name
    ensures Basename(dir + "/" + name) == name
    decreases |name|
  {
    var p := dir + "/" + name;
    if name == [] {
      assert p[|p| - 1] == '/';
    } else {
      var last := name[|name| - 1];
      assert p[..|p| - 1] == dir + "/" + name[..|name| - 1];
      BasenameAfterSlash(dir, name[..|name| - 1]);
      assert name == name[..|name| - 1] + [last];
    }
  }

  /** POSIX `os.path.join(a, b)` for two components. */
  function Join(a: string, b: string): (r: string)
    ensures |b| > 0 && b[0] == '/' ==> r == b
    ensures !(|b| > 0 && b[0] == '/') ==> |r| >= |a| + |b| && r[..|a|] == a && r[|r| - |b|..] == b
  {
    if |b| > 0 && b[0] == '/' then b
    else if a == [] || a[|a| - 1] == '/' then a + b
    else a + "/" + b
  }

  /** The file name that `os.path.join` attaches is what `basename` gives back. */
  lemma BasenameOfJoin(dir: string, name: string)
    requires '/' !in name
    ensures Basename(Join(dir, name)) == name
  {
    if dir == [] {
      BasenameOfName(name);
    } else if dir[|dir| - 1] == '/' {
      var d := dir[..|dir| - 1];
      assert dir == d + "/";
      assert dir + name == d + "/" + name;
      BasenameAfterSlash(d, name);
    } else {
      BasenameAfterSlash(dir, name);
    }
  }

  /** `s.rfind(c)`: the index of the last occurrence of c, or -1. */
  function RFind(s: string, c: char): (i: int)
    ensures -1 <= i < |s|
    ensures i == -1 <==> c !in s
    ensures i >= 0 ==> s[i] == c && c !in s[i + 1..]
  {
    if s == [] then -1
    else if s[|s| - 1] == c then |s| - 1
    else
      var i := RFind(s[..|s| - 1], c);
      assert s[i + 1..] == s[..|s| - 1][i + 1..] + [s[|s| - 1]] by {
        if i == -1 { assert s[..|s| - 1] + [s[|s| - 1]] == s; }
      }
      i
  }

  lemma {:induction false} RFindAt(s: string, c: char, k: int)
    requires 0 <= k < |s| && s[k] == c && c !in s[k + 1..]
    ensures RFind(s, c) == k
    decreases |s|
  {
    if k < |s| - 1 {
      assert s[|s| - 1] == s[k + 1..][|s| - 2 - k];
      assert s[..|s| - 1][k + 1..] == s[k + 1..|s| - 1];
      RFindAt(s[..|s| - 1], c, k);
    }
  }

  /** `pathlib.Path(p).stem`: the final component without its last suffix. */
  function Stem(p: string): (stem: string)
    ensures '/' !in stem
  {
    DropSuffix(Basename(p))
  }

  /** `PurePath.stem` applied to a final component: cut at the last "." unless it is first or last. */
  function DropSuffix(name: string): (stem: string)
    ensures '/' !in name ==> '/' !in stem
  {
    var i := RFind(name, '.');
    if 0 < i < |name| - 1 then name[..i] else name
  }

  /** A model file `<x>.pt` has stem `<x>` whenever x is not empty. */
  lemma StemDropsSuffix(p: string, x: string, ext: string)
    requires Basename(p) == x + "." + ext
    requires |x| > 0 && |ext| > 0 && '.' !in ext
    ensures Stem(p) == x
  {
    DropSuffixOf(x, ext);
  }

  lemma DropSuffixOf(x: string, ext: string)
    requires |x| > 0 && |ext| > 0 && '.' !in ext
    ensures DropSuffix(x + "." + ext) == x
  {
    var name := x + "." + ext;
    assert name[|x| + 1..] == ext;
    RFindAt(name, '.', |x|);
    assert name[..|x|] == x;
  }

  // ---------------------------------------------------------------------
  // str.endswith, str.lower (ASCII), str.partition(" ")

  predicate EndsWith(s: string, suffix: string) {
    |suffix| <= |s| && s[|s| - |suffix|..] == suffix
  }

  function LowerChar(c: char): char {
    if 'A' <= c <= 'Z' then (c as int + 32) as char else c
  }

  /** `s.lower()` on the ASCII letters; other characters are kept. */
  function AsciiLower(s: string): (r: string)
    ensures |r| == |s|
    ensures forall i :: 0 <= i < |s| ==> r[i] == LowerChar(s[i])
  {
    if s == [] then [] else [LowerChar(s[0])] + AsciiLower(s[1..])
  }

  /** `s.partition(" ")` without the separator: the text before the first space and after it. */
  function SplitAtFirstSpace(s: string): (r: (string, string))
    ensures ' ' !in r.0
    ensures ' ' in s ==> s == r.0 + " " + r.1
    ensures ' ' !in s ==> r == (s, "")
  {
    if s == [] then ("", "")
    else if s[0] == ' ' then ("", s[1..])
    else
      var rest := SplitAtFirstSpace(s[1..]);
      assert s == [s[0]] + s[1..];
      ([s[0]] + rest.0, rest.1)
  }

  /** Partitioning a word, a space and a rest gives back the word and the rest. */
  lemma {:induction false} SplitWordAndRest(word: string, rest: string)
    requires ' ' !in word
    ensures SplitAtFirstSpace(word + " " + rest) == (word, rest)
  {
    var s := word + " " + rest;
    if word == [] {
      assert s[0] == ' ' && s[1..] == rest;
    } else {
      SplitWordAndRest(word[1..], rest);
      assert s[0] == word[0] && s[1..] == word[1..] + " " + rest;
      assert word[0] != ' ' by { assert word[0] in word; }
      assert word == [word[0]] + word[1..];
    }
  }
}
