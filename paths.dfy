/**
 * `/`-separated paths and the `os.path` operations the converter
 * relies on: `basename`, `dirname`, `join`, `abspath` (without `normpath`),
 * the stem that `splitext` leaves of a base name, and `str.lower` on the
 * ASCII letters.
 */
module Paths {
  import opened Wrappers

  /** Index just past the last separator of `p`, 0 when there is none:
      where `os.path.basename` starts. */
  function TailStart(p: string): (i: nat)
    ensures i <= |p|
    ensures 0 < i ==> p[i - 1] == '/'
    ensures '/' !in p[i..]
  {
    if p == [] then 0
    else if p[|p| - 1] == '/' then |p|
    else
      var i := TailStart(p[..|p| - 1]);
      assert p[i..] == p[..|p| - 1][i..] + [p[|p| - 1]];
      i
  }

  /** `os.path.basename`: the longest suffix without a separator. */
  function Basename(p: string): (name: string)
    ensures '/' !in name
    ensures |name| <= |p| && p[|p| - |name|..] == name
    ensures |name| == |p| || p[|p| - |name| - 1] == '/'
  {
    p[TailStart(p)..]
  }

  predicate AllSlashes(s: string) {
    forall i | 0 <= i < |s| :: s[i] == '/'
  }

  function TrimTrailingSlashes(s: string): (r: string)
    ensures r <= s
    ensures r == [] || r[|r| - 1] != '/'
    ensures AllSlashes(s[|r|..])
  {
    if s != [] && s[|s| - 1] == '/' then
      var r := TrimTrailingSlashes(s[..|s| - 1]);
      assert s[|r|..] == s[..|s| - 1][|r|..] + ['/'];
      r
    else s
  }

  /** A directory as `os.path.dirname` returns it: empty, all separators
      (the root), or not ending in a separator. */
  predicate Canonical(d: string) {
    d == [] || d[|d| - 1] != '/' || AllSlashes(d)
  }

  /** `os.path.dirname`: everything before the base name, with trailing
      separators removed unless the head is made of separators only. */
  function Dirname(p: string): (d: string)
    ensures d <= p
    ensures Canonical(d)
  {
    var head := p[..TailStart(p)];
    if head != [] && !AllSlashes(head) then
      TrimTrailingSlashes(head)
    else head
  }

  /** `a` as a directory prefix: with a separator appended unless it is
      empty or already ends in one. */
  function WithSeparator(a: string): (d: string)
    ensures a <= d && |d| <= |a| + 1
  {
    if a == [] || a[|a| - 1] == '/' then a else a + "/"
  }

  /** `os.path.join(a, b)` for two components: an absolute `b` replaces `a`. */
  function Join(a: string, b: string): (p: string)
    ensures b != [] && b[0] == '/' ==> p == b
  {
    if b != [] && b[0] == '/' then b else WithSeparator(a) + b
  }

  /** A relative name joined onto `a` follows `a` and ends the result. */
  lemma JoinParts(a: string, b: string)
    requires b == [] || b[0] != '/'
    ensures |a| + |b| <= |Join(a, b)|
    ensures Join(a, b)[..|a|] == a && Join(a, b)[|Join(a, b)| - |b|..] == b
  {
    var p := Join(a, b);
    assert p == WithSeparator(a) + b;
    assert p[..|a|] == WithSeparator(a)[..|a|];
  }

  /** `os.path.abspath` without normalisation: a relative path is taken
      relative to the working directory `cwd`. */
  function Abs(cwd: string, p: string): (r: string)
    ensures p != [] && p[0] == '/' ==> r == p
  {
    if p != [] && p[0] == '/' then p else Join(cwd, p)
  }

  lemma {:induction false} TailStartAfter(x: string, n: string)
    requires '/' !in n
    requires x == [] || x[|x| - 1] == '/'
    ensures TailStart(x + n) == |x|
    decreases |n|
  {
    if n == [] {
      assert x + n == x;
    } else {
      var xn := x + n;
      assert xn[..|xn| - 1] == x + n[..|n| - 1];
      assert xn[|xn| - 1] == n[|n| - 1] != '/';
      TailStartAfter(x, n[..|n| - 1]);
    }
  }

  /** Joining a directory as `dirname` returns it with a base name splits
      back into the same two parts. */
  lemma {:induction false} JoinSplits(d: string, n: string)
    requires '/' !in n && n != []
    requires Canonical(d)
    ensures Basename(Join(d, n)) == n
    ensures Dirname(Join(d, n)) == d
  {
    var x := if d == [] || d[|d| - 1] == '/' then d else d + "/";
    assert Join(d, n) == x + n;
    TailStartAfter(x, n);
    var p := x + n;
    assert p[..TailStart(p)] == x;
    if d != [] && d[|d| - 1] != '/' {
      assert !AllSlashes(x);
      assert x[..|x| - 1] == d;
    }
  }

  lemma NoSeparatorInPrefix(a: string, b: string)
    requires a <= b && '/' !in b
    ensures '/' !in a
  {
  }

  lemma NoSeparatorInConcat(a: string, b: string)
    requires '/' !in a && '/' !in b
    ensures '/' !in a + b
  {
  }

  predicate AllDots(s: string) {
    forall i | 0 <= i < |s| :: s[i] == '.'
  }

  /** Index of the last '.' in `s`, if any. */
  function LastDot(s: string): (r: Option<nat>)
    ensures r.None? ==> '.' !in s
    ensures r.Some? ==> r.value < |s| && s[r.value] == '.' && '.' !in s[r.value + 1..]
  {
    if s == [] then None
    else if s[|s| - 1] == '.' then Some(|s| - 1)
    else
      var r := LastDot(s[..|s| - 1]);
      assert r.Some? ==> s[r.value + 1..] == s[..|s| - 1][r.value + 1..] + [s[|s| - 1]];
      assert s == s[..|s| - 1] + [s[|s| - 1]];
      r
  }

  function HasNonDot(s: string): (b: bool)
    ensures b <==> !AllDots(s)
  {
    exists i | 0 <= i < |s| :: s[i] != '.'
  }

  /** The root that `os.path.splitext` returns for a base name: the name cut
      at its last '.', unless everything before that '.' is dots (a hidden
      file such as ".bashrc" has no extension). */
  function Stem(name: string): (stem: string)
    ensures stem <= name
    ensures stem == name <==> (LastDot(name).None? || AllDots(name[..LastDot(name).value]))
    ensures stem != name ==> name[|stem|] == '.' && '.' !in name[|stem| + 1..] && !AllDots(stem)
  {
    match LastDot(name)
    case None => name
    case Some(d) => if HasNonDot(name[..d]) then name[..d] else name
  }

  /** Appending an extension to a name that is not made of dots only is
      undone by taking the stem. */
  lemma StemAfterExtension(n: string, ext: string)
    requires !AllDots(n)
    requires |ext| > 0 && ext[0] == '.' && '.' !in ext[1..]
    ensures Stem(n + ext) == n
  {
    var s := n + ext;
    assert s[|n|] == '.';
    assert s[|n| + 1..] == ext[1..];
    var d := LastDot(s).value;
    assert s[..d] == n;
  }

  function LowerChar(c: char): char {
    if 'A' <= c <= 'Z' then (c as int + 32) as char else c
  }

  /** `str.lower` on the ASCII letters; other characters are kept. */
  function Lower(s: string): (r: string)
    ensures |r| == |s|
    ensures forall i | 0 <= i < |s| :: r[i] == LowerChar(s[i])
  {
    seq(|s|, i requires 0 <= i < |s| => LowerChar(s[i]))
  }

  predicate EndsWith(s: string, suffix: string) {
    |suffix| <= |s| && s[|s| - |suffix|..] == suffix
  }

  /** `p` itself or a path inside the directory `p`: what `shutil.rmtree(p)`
      removes. */
  predicate Under(k: string, p: string) {
    k == p || (|p| < |k| && k[..|p|] == p && k[|p|] == '/')
  }

  /** The directories `os.makedirs(p)` has to exist afterwards: every proper
      prefix of `p` ending before a separator (the root aside), and `p`. */
  function Ancestors(p: string): (a: set<string>)
    ensures p != [] ==> p in a
    ensures forall q | q in a :: q != [] && q <= p && (q == p || p[|q|] == '/')
  {
    var a := set i | 0 < i <= |p| && (i == |p| || p[i] == '/') :: p[..i];
    assert p != [] ==> p[..|p|] in a;
    assert p[..|p|] == p;
    a
  }

  lemma WithSeparatorAppend(c: string, a: string)
    requires a != []
    ensures WithSeparator(c + a) == c + WithSeparator(a)
  {
    assert (c + a)[|c + a| - 1] == a[|a| - 1];
  }

  /** Resolving a joined path is joining onto the resolved directory. */
  lemma AbsJoin(cwd: string, a: string, n: string)
    requires n == [] || n[0] != '/'
    ensures Abs(cwd, Join(a, n)) == Join(Abs(cwd, a), n)
  {
    if a == [] {
      AbsJoinEmpty(cwd, n);
    } else if a[0] != '/' {
      JoinRelative(cwd, a, n);
    } else {
      AbsJoinAbsolute(cwd, a, n);
    }
  }

  lemma AbsJoinEmpty(cwd: string, n: string)
    requires n == [] || n[0] != '/'
    ensures Abs(cwd, Join([], n)) == Join(Abs(cwd, []), n)
  {
    assert Join([], n) == n;
  }

  lemma AbsJoinAbsolute(cwd: string, a: string, n: string)
    requires n == [] || n[0] != '/'
    requires a != [] && a[0] == '/'
    ensures Abs(cwd, Join(a, n)) == Join(Abs(cwd, a), n)
  {
    assert Join(a, n)[0] == '/';
  }

  lemma JoinRelative(cwd: string, a: string, n: string)
    requires n == [] || n[0] != '/'
    requires a != [] && a[0] != '/'
    ensures Abs(cwd, Join(a, n)) == Join(Abs(cwd, a), n)
  {
    var c := WithSeparator(cwd);
    assert (WithSeparator(a) + n)[0] == a[0];
    WithSeparatorAppend(c, a);
    assert c + (WithSeparator(a) + n) == (c + WithSeparator(a)) + n;
  }

  /** The base name of a joined path is the name joined on. */
  lemma BasenameJoin(a: string, n: string)
    requires n != [] && '/' !in n
    ensures Basename(Join(a, n)) == n
  {
    var x := if a == [] || a[|a| - 1] == '/' then a else a + "/";
    assert Join(a, n) == x + n;
    TailStartAfter(x, n);
    assert (x + n)[|x|..] == n;
  }

  /** A joined path lies inside the directory it was joined onto. */
  lemma UnderJoin(a: string, n: string)
    requires a != [] && a[|a| - 1] != '/'
    requires n == [] || n[0] != '/'
    ensures Under(Join(a, n), a)
  {
    var j := Join(a, n);
    assert j == a + "/" + n;
    assert j[..|a|] == a && j[|a|] == '/';
  }

  /** Joining onto a path inside `q` stays inside `q`. */
  lemma UnderJoinAgain(d: string, b: string, q: string)
    requires Under(d, q) && q != [] && q[|q| - 1] != '/'
    requires b == [] || b[0] != '/'
    ensures Under(Join(d, b), q)
  {
    if d == q {
      UnderJoin(q, b);
    } else {
      var j := Join(d, b);
      assert j[..|d|] == d;
      assert j[..|q|] == d[..|q|];
    }
  }

  lemma UnderParent(p: string, e: string, c: string)
    requires p != [] && p[|p| - 1] != '/' && '/' !in e
    ensures Under(Join(p, e), c) ==> Under(p, c) || c == Join(p, e)
  {
    var j := Join(p, e);
    assert j == p + "/" + e;
  }

  /** Where the name `e` joined onto `p` sits in any path inside it. */
  lemma ComponentAt(p: string, e: string, k: string)
    requires p != [] && p[|p| - 1] != '/' && '/' !in e && Under(k, Join(p, e))
    ensures |k| >= |p| + 1 + |e|
    ensures forall i | 0 <= i < |e| :: k[|p| + 1 + i] == e[i]
    ensures |k| == |p| + 1 + |e| || k[|p| + 1 + |e|] == '/'
  {
    var j := Join(p, e);
    assert j == p + "/" + e;
    assert k[..|j|] == j;
    forall i | 0 <= i < |e| ensures k[|p| + 1 + i] == e[i] {
      assert k[..|j|][|p| + 1 + i] == j[|p| + 1 + i];
    }
  }

  /** Two differently named entries of one directory share nothing. */
  lemma SiblingsDisjoint(p: string, e1: string, e2: string, k: string)
    requires p != [] && p[|p| - 1] != '/'
    requires '/' !in e1 && '/' !in e2
    ensures Under(k, Join(p, e1)) && Under(k, Join(p, e2)) ==> e1 == e2
  {
    if Under(k, Join(p, e1)) && Under(k, Join(p, e2)) {
      ComponentAt(p, e1, k);
      ComponentAt(p, e2, k);
    }
  }

  /** Inside a directory that is inside `c` is inside `c`. */
  lemma UnderTrans(k: string, m: string, c: string)
    requires Under(k, m) && Under(m, c)
    ensures Under(k, c)
  {
    if k != m && m != c {
      assert k[..|c|] == k[..|m|][..|c|];
      assert k[|c|] == k[..|m|][|c|];
    }
  }

  /** The stem of a base name is a non-empty name without separators. */
  lemma StemIsName(name: string)
    requires name != [] && '/' !in name
    ensures Stem(name) != [] && '/' !in Stem(name)
  {
    NoSeparatorInPrefix(Stem(name), name);
  }
}
