/** The part of Node's POSIX `path` module the transform uses: `extname`,
    `basename` (with and without a suffix to strip), `dirname` and `join`,
    over a path written as a string with `/` as the separator. */
module Paths {
  import opened Wrappers

  const Sep: char := '/'

  /** Position of the last `c` in `s`, if any. */
  function LastIndexOf(s: string, c: char): (r: Option<nat>)
    ensures r.None? ==> forall j :: 0 <= j < |s| ==> s[j] != c
    ensures r.Some? ==> r.value < |s| && s[r.value] == c
    ensures r.Some? ==> forall j :: r.value < j < |s| ==> s[j] != c
  {
    if s == [] then None
    else if s[|s| - 1] == c then Some(|s| - 1)
    else LastIndexOf(s[..|s| - 1], c)
  }

  /** `path.basename(p)`: what follows the last separator. */
  function Base(p: string): (r: string)
    ensures Sep !in r
    ensures |r| <= |p| && r == p[|p| - |r|..]
  {
    match LastIndexOf(p, Sep)
    case None => p
    case Some(i) => p[i + 1..]
  }

  /** `path.dirname(p)`: what precedes the last separator; "." when there is
      no separator and "/" when the only one is the leading one. */
  function Dir(p: string): (r: string)
    ensures r != []
    ensures Sep !in p ==> r == "."
  {
    match LastIndexOf(p, Sep)
    case None => "."
    case Some(i) => if i == 0 then "/" else p[..i]
  }

  /** Where the extension of base name `b` starts: at its last `.`, unless it
      has none, that `.` is its first character, or `b` is "..". */
  function ExtStart(b: string): (k: Option<nat>)
    ensures k.Some? ==> 0 < k.value < |b| && b[k.value] == '.'
    ensures k.Some? ==> forall j :: k.value < j < |b| ==> b[j] != '.'
    ensures k.Some? ==> b != ".."
    ensures k.None? ==> b == ".." || forall j :: 0 < j < |b| ==> b[j] != '.'
  {
    var k := LastIndexOf(b, '.');
    if k.None? || k.value == 0 || b == ".." then None else k
  }

  /** A path splits at its last separator: the base name is everything after
      it and the directory everything before it, or "/" when nothing is. */
  lemma SplitAtLastSeparator(p: string)
    ensures Sep !in p ==> Base(p) == p && Dir(p) == "."
    ensures Sep in p ==> |Base(p)| < |p| && p[|p| - |Base(p)| - 1] == Sep
    ensures Sep in p && |Base(p)| == |p| - 1 ==> Dir(p) == "/"
    ensures Sep in p && |Base(p)| < |p| - 1 ==> Dir(p) == p[..|p| - |Base(p)| - 1]
  {
    var k := LastIndexOf(p, Sep);
    if k.Some? {
      assert |Base(p)| == |p| - k.value - 1;
    }
  }

  /** `path.extname(p)`: the base name from its extension's `.` on, or empty. */
  function Extname(p: string): string
  {
    var b := Base(p);
    match ExtStart(b)
    case None => ""
    case Some(k) => b[k..]
  }

  /** `path.basename(p, ext)`: the base name with `ext` cut off its end when
      `ext` is a non-empty proper suffix of it. */
  function Basename(p: string, ext: string): string
  {
    var b := Base(p);
    if 0 < |ext| < |b| && b[|b| - |ext|..] == ext then b[..|b| - |ext|] else b
  }

  /** The base name up to its extension's `.`. */
  function Stem(p: string): string
  {
    var b := Base(p);
    match ExtStart(b)
    case None => b
    case Some(k) => b[..k]
  }

  /** `path.join(dir, name)` for a directory as `Dir` returns it and a single
      file name: a "." directory disappears and the root is not doubled. */
  function Join(dir: string, name: string): string
  {
    if dir == "." then name
    else if dir == "/" then "/" + name
    else dir + "/" + name
  }

  /** The output naming rule, `join(dirname(p), basename(p, extname(p)) + ".css")`:
      same directory, same stem, extension ".css". */
  function WithCssExtension(p: string): string
  {
    Join(Dir(p), Stem(p) + ".css")
  }

  /** The stem is what `basename` leaves when given the path's own extension. */
  lemma StemIsBasenameWithoutExtname(p: string)
    ensures Stem(p) == Basename(p, Extname(p))
  {
    var b := Base(p);
    match ExtStart(b)
    case None =>
      assert Extname(p) == "";
    case Some(k) =>
      var e := b[k..];
      assert Extname(p) == e && |b| - |e| == k;
      assert b[k..] == e;
      assert Basename(p, e) == b[..k];
  }

  /** A path with an extension is its non-empty stem followed by that
      extension, which starts with its only `.`. */
  lemma StemThenExtension(p: string)
    requires Extname(p) != ""
    ensures Base(p) == Stem(p) + Extname(p)
    ensures Stem(p) != [] && Sep !in Stem(p)
    ensures Extname(p)[0] == '.' && '.' !in Extname(p)[1..]
  {
    var b := Base(p);
    var k := ExtStart(b).value;
    assert b == b[..k] + b[k..];
    forall j | 0 <= j < k ensures b[..k][j] != Sep {
      assert b[..k][j] == b[j];
    }
    forall j | 0 <= j < |b| - k - 1 ensures b[k..][1..][j] != '.' {
      assert b[k..][1..][j] == b[k + 1 + j];
    }
  }

  /** Joining a directory with a single file name gives a path whose
      directory and base name are exactly those two. */
  lemma {:induction false} DirAndBaseOfJoin(dir: string, name: string)
    requires dir != [] && name != [] && Sep !in name
    ensures Dir(Join(dir, name)) == dir
    ensures Base(Join(dir, name)) == name
  {
    var p := Join(dir, name);
    if dir == "." {
      assert Sep !in p;
    } else {
      var at := if dir == "/" then 0 else |dir|;
      assert p[at] == Sep;
      assert p[at + 1..] == name;
      var k := LastIndexOf(p, Sep);
      assert k.Some? && k.value == at;
      if dir != "/" {
        assert p[..at] == dir;
      }
    }
  }

  /** The extension of a name ending in ".css" after a non-empty, separator-free
      stem is ".css", and its stem is that stem. */
  lemma CssNameParts(stem: string)
    requires stem != [] && Sep !in stem
    ensures Sep !in stem + ".css" && Base(stem + ".css") == stem + ".css"
    ensures Extname(stem + ".css") == ".css"
    ensures Stem(stem + ".css") == stem
  {
    var n := stem + ".css";
    assert forall j :: 0 <= j < |stem| ==> n[j] == stem[j];
    assert Sep !in n;
    assert LastIndexOf(n, Sep).None?;
    var k := LastIndexOf(n, '.');
    assert n[|stem|] == '.';
    assert k.Some? && k.value == |stem|;
    assert ExtStart(n) == k;
    assert n[|stem|..] == ".css";
  }

  /** Extension and stem depend on the base name alone. */
  lemma SameBaseSameParts(p: string, q: string)
    requires Base(p) == Base(q)
    ensures Extname(p) == Extname(q) && Stem(p) == Stem(q)
  {
  }

  /** The renaming keeps the directory and the stem and gives the extension
      ".css"; for a ".scss" input the old base name was the stem plus ".scss". */
  lemma {:induction false} RenamedPath(p: string)
    requires Extname(p) == ".scss"
    ensures Base(p) == Stem(p) + ".scss"
    ensures Dir(WithCssExtension(p)) == Dir(p)
    ensures Base(WithCssExtension(p)) == Stem(p) + ".css"
    ensures Extname(WithCssExtension(p)) == ".css"
    ensures Stem(WithCssExtension(p)) == Stem(p)
  {
    StemThenExtension(p);
    CssNameParts(Stem(p));
    DirAndBaseOfJoin(Dir(p), Stem(p) + ".css");
    SameBaseSameParts(WithCssExtension(p), Stem(p) + ".css");
  }
}
