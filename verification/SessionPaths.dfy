/**
 The virtual directory of a session.  Paths are handled lexically: the user's root is a prefix, separators
 become backslashes, and nothing interprets dots or links.
 */
module SessionPaths {

  function NormaliseChar(c: char): char { if c == '/' then '\\' else c }
  function VirtualChar(c: char): char { if c == '\\' then '/' else c }

  function Normalise(s: string): (r: string)
    ensures |r| == |s|
  {
    seq(|s|, i requires 0 <= i < |s| => NormaliseChar(s[i]))
  }

  function Virtual(s: string): (r: string)
    ensures |r| == |s|
  {
    seq(|s|, i requires 0 <= i < |s| => VirtualChar(s[i]))
  }

  function Lower(s: string): (r: string)
    ensures |r| == |s|
  {
    seq(|s|, i requires 0 <= i < |s| => if 'A' <= s[i] <= 'Z' then s[i] + 32 as char else s[i])
  }

  function Resolve(root: string, cwd: string, arg: string): string {
    if arg == "" then cwd
    else
      var a := Normalise(arg);
      if a[0] == '\\' then root + a else cwd + "\\" + a
  }

  predicate WithinRoot(root: string, path: string) {
    |root| <= |path| && Lower(path[..|root|]) == Lower(root)
  }

  // find_last_of: the last place of c, or -1.
  function FindLast(s: string, c: char): (i: int)
    ensures -1 <= i < |s| && (i >= 0 ==> s[i] == c) && forall j :: i < j < |s| ==> s[j] != c
  {
    if s == "" then -1 else if s[|s| - 1] == c then |s| - 1 else FindLast(s[..|s| - 1], c)
  }

  function Cdup(root: string, cwd: string): string {
    var pos := FindLast(cwd, '\\');
    if pos >= 0 && cwd != root && WithinRoot(root, cwd[..pos]) then cwd[..pos] else cwd
  }

  function Pwd(root: string, cwd: string): string {
    Virtual(if |cwd| > |root| then cwd[|root|..] else "/")
  }

  // ---------------------------------------------------------------- the invariant

  // Empty, or a backslash followed by components without slashes.
  predicate GoodSuffix(s: string) { '/' !in s && (s != "" ==> s[0] == '\\') }

  // The current directory is the root with such a suffix.
  predicate Inside(root: string, cwd: string) { root <= cwd && GoodSuffix(cwd[|root|..]) }

  function Suffix(root: string, cwd: string): string
    requires root <= cwd
  {
    cwd[|root|..]
  }

  lemma NormaliseGood(s: string)
    ensures '/' !in Normalise(s)
    ensures '/' !in s ==> Normalise(s) == s
  {
  }

  /** Resolving any argument stays lexically inside the user's root, so the permission test of the handlers
      never refuses. */
  lemma ResolveInside(root: string, cwd: string, arg: string)
    requires Inside(root, cwd)
    ensures Inside(root, Resolve(root, cwd, arg)) && WithinRoot(root, Resolve(root, cwd, arg))
  {
    var p := Resolve(root, cwd, arg);
    if arg != "" {
      var a := Normalise(arg);
      NormaliseGood(arg);
      if a[0] == '\\' { assert p[|root|..] == a; } else { assert p[|root|..] == Suffix(root, cwd) + "\\" + a; }
    }
    assert p[..|root|] == root;
  }

  lemma ParentInside(root: string, cwd: string)
    requires Inside(root, cwd) && cwd != root
    ensures var pos := FindLast(cwd, '\\');
            && |root| <= pos < |cwd|
            && Cdup(root, cwd) == cwd[..pos] && Inside(root, cwd[..pos])
  {
    var pos := FindLast(cwd, '\\');
    assert Suffix(root, cwd) != "" by { assert cwd == root + Suffix(root, cwd); }
    assert cwd[|root|] == Suffix(root, cwd)[0];
    assert cwd[..pos][..|root|] == root && cwd[..pos][|root|..] == Suffix(root, cwd)[..pos - |root|];
  }

  lemma CdupInside(root: string, cwd: string)
    requires Inside(root, cwd)
    ensures Inside(root, Cdup(root, cwd))
  {
    if cwd != root { ParentInside(root, cwd); }
  }

  // ---------------------------------------------------------------- round trips

  lemma VirtualNormalise(s: string)
    requires '/' !in s
    ensures Normalise(Virtual(s)) == s
  {
  }

  /** CWD with the path PWD printed names the same directory: PWD prints the same again. */
  lemma PwdRoundTrip(root: string, cwd: string, other: string)
    requires Inside(root, cwd)
    ensures Pwd(root, Resolve(root, other, Pwd(root, cwd))) == Pwd(root, cwd)
    ensures cwd != root ==> Resolve(root, other, Pwd(root, cwd)) == cwd
  {
    if cwd == root {
      assert Pwd(root, cwd) == "/" && Normalise("/") == "\\";
      assert (root + "\\")[|root|..] == "\\" && Virtual("\\") == "/";
    } else {
      var suffix := Suffix(root, cwd);
      assert cwd == root + suffix;
      VirtualNormalise(suffix);
    }
  }

  /** CWD to a name without separators and then CDUP comes back. */
  lemma CwdCdupIdentity(root: string, cwd: string, name: string)
    requires Inside(root, cwd) && name != "" && '/' !in name && '\\' !in name
    ensures Cdup(root, Resolve(root, cwd, name)) == cwd
  {
    NormaliseGood(name);
    var p := cwd + "\\" + name;
    assert Resolve(root, cwd, name) == p && p[|cwd|] == '\\';
    ResolveInside(root, cwd, name);
    ParentInside(root, p);
    assert forall j :: |cwd| < j < |p| ==> p[j] == name[j - |cwd| - 1];
    assert FindLast(p, '\\') == |cwd| && p[..|cwd|] == cwd;
  }

  function CdupTimes(root: string, cwd: string, n: nat): string {
    if n == 0 then cwd else CdupTimes(root, Cdup(root, cwd), n - 1)
  }

  function Count(s: string, c: char): nat {
    if s == "" then 0 else Count(s[..|s| - 1], c) + if s[|s| - 1] == c then 1 else 0
  }

  lemma {:induction false} CountToLast(s: string, c: char)
    ensures FindLast(s, c) >= 0 ==> Count(s, c) == Count(s[..FindLast(s, c)], c) + 1
    ensures FindLast(s, c) < 0 ==> Count(s, c) == 0
  {
    if s != "" && s[|s| - 1] != c {
      CountToLast(s[..|s| - 1], c);
      if FindLast(s, c) >= 0 { assert s[..|s| - 1][..FindLast(s, c)] == s[..FindLast(s, c)]; }
    }
  }

  lemma ParentHasOneLess(root: string, cwd: string)
    requires Inside(root, cwd) && cwd != root && Inside(root, Cdup(root, cwd))
    requires FindLast(cwd, '\\') >= |root| && Cdup(root, cwd) == cwd[..FindLast(cwd, '\\')]
    ensures Count(Suffix(root, cwd), '\\') == Count(Suffix(root, Cdup(root, cwd)), '\\') + 1
  {
    hide Cdup, Count, WithinRoot, GoodSuffix;
    var suffix, pos := Suffix(root, cwd), FindLast(cwd, '\\');
    var last := FindLast(suffix, '\\');
    CountToLast(suffix, '\\');
    assert suffix[pos - |root|] == cwd[pos];
    assert pos == |root| + last by { assert cwd[|root| + last] == suffix[last]; }
    assert Suffix(root, cwd[..pos]) == suffix[..last];
  }

  /** As many CDUPs as the directory has components below the root reach the root, and further ones stay. */
  lemma {:induction false} CdupReachesRoot(root: string, cwd: string, n: nat)
    requires Inside(root, cwd) && n >= Count(Suffix(root, cwd), '\\')
    ensures CdupTimes(root, cwd, n) == root
    decreases n
  {
    hide Cdup, Count, WithinRoot, FindLast, GoodSuffix;
    if cwd == root {
      StaysAtRoot(root, n);
    } else {
      ParentInside(root, cwd);
      ParentHasOneLess(root, cwd);
      CdupReachesRoot(root, Cdup(root, cwd), n - 1);
    }
  }

  lemma {:induction false} StaysAtRoot(root: string, n: nat)
    ensures CdupTimes(root, root, n) == root
  {
    if n > 0 { StaysAtRoot(root, n - 1); }
  }
}
