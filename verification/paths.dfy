/** The two pieces of Node's POSIX `path` module that name a deployment after
    its file: `basename` and `extname`. Windows separators, and `basename`
    with an arbitrary suffix argument, are not modelled. */
module Paths {
  import opened Wrappers
  import opened Strings

  const Separator: char := '/'

  /** The path without the separators it ends with; Node ignores them when it
      looks for the last segment. */
  function TrimTrailingSeparators(p: string): (r: string)
    ensures StartsWith(p, r)
    ensures r == [] || r[|r| - 1] != Separator
    ensures forall i :: |r| <= i < |p| ==> p[i] == Separator
    decreases |p|
  {
    if |p| > 0 && p[|p| - 1] == Separator then TrimTrailingSeparators(p[..|p| - 1]) else p
  }

  /** The characters after the last separator: the whole segment, and nothing
      from the segment before it. */
  function LastSegment(p: string): (r: string)
    ensures EndsWith(p, r)
    ensures Separator !in r
    ensures |r| < |p| ==> p[|p| - |r| - 1] == Separator
    decreases |p|
  {
    if |p| == 0 || p[|p| - 1] == Separator then "" else LastSegment(p[..|p| - 1]) + [p[|p| - 1]]
  }

  /** `path.basename(p)` */
  function Basename(p: string): (r: string)
    ensures Separator !in r
  {
    LastSegment(TrimTrailingSeparators(p))
  }

  /** The position of the last '.' in `s`, if any. */
  function LastDot(s: string): (r: Option<nat>)
    ensures r.Some? ==> r.value < |s| && s[r.value] == '.' && '.' !in s[r.value + 1..]
    ensures r.None? ==> '.' !in s
    decreases |s|
  {
    if |s| == 0 then None
    else if s[|s| - 1] == '.' then Some(|s| - 1)
    else LastDot(s[..|s| - 1])
  }

  /** The extension of a base name: from its last '.' to its end; empty
      when there is no dot, when the only dot starts the name (".bashrc"), or
      for "..". */
  function NameExtension(b: string): (r: string)
    ensures EndsWith(b, r)
    ensures r != [] ==> r[0] == '.' && '.' !in r[1..] && |r| < |b|
  {
    match LastDot(b)
    case None => ""
    case Some(d) => if d == 0 || b == ".." then "" else b[d..]
  }

  /** A base name without its extension. */
  function NameStem(b: string): (r: string)
    ensures r + NameExtension(b) == b
    ensures NameExtension(b) != [] ==> r != []
  {
    match LastDot(b)
    case None => b
    case Some(d) =>
      if d == 0 || b == ".." then b
      else
        assert b[..d] + b[d..] == b;
        b[..d]
  }

  /** `path.extname(p)` */
  function Extname(p: string): (r: string)
    ensures EndsWith(Basename(p), r)
  {
    NameExtension(Basename(p))
  }

  /** `path.basename(p, path.extname(p))`: the base name with its extension
      cut off. Node strips the suffix argument when the base name ends with it
      and is longer than it, which `Extname` guarantees whenever it is not
      empty. */
  function Stem(p: string): (r: string)
    ensures r + Extname(p) == Basename(p)
    ensures Separator !in r
  {
    var r := NameStem(Basename(p));
    assert forall c :: c in r ==> c in Basename(p);
    r
  }

  /** The last segment of "dir/name" is `name`. */
  lemma {:induction false} LastSegmentOfJoin(dir: string, name: string)
    requires Separator !in name
    ensures LastSegment(dir + [Separator] + name) == name
    decreases |name|
  {
    var p := dir + [Separator] + name;
    if |name| == 0 {
      assert p[|p| - 1] == Separator;
    } else {
      var init := name[..|name| - 1];
      assert p[..|p| - 1] == dir + [Separator] + init;
      assert forall c :: c in init ==> c in name;
      LastSegmentOfJoin(dir, init);
      assert init + [name[|name| - 1]] == name;
    }
  }

  /** The last dot of "base.ext", when `ext` has no dot, is the one before
      `ext`. */
  lemma {:induction false} LastDotBeforeExtension(base: string, ext: string)
    requires '.' !in ext
    ensures LastDot(base + "." + ext) == Some(|base|)
    decreases |ext|
  {
    var s := base + "." + ext;
    if |ext| > 0 {
      var init := ext[..|ext| - 1];
      assert s[..|s| - 1] == base + "." + init;
      assert forall c :: c in init ==> c in ext;
      LastDotBeforeExtension(base, init);
    }
  }

  /** The base name of "dir/name" is `name`. */
  lemma BasenameOfJoin(dir: string, name: string)
    requires name != "" && Separator !in name
    ensures Basename(dir + [Separator] + name) == name
  {
    var p := dir + [Separator] + name;
    assert p[|p| - 1] == name[|name| - 1];
    assert TrimTrailingSeparators(p) == p;
    LastSegmentOfJoin(dir, name);
  }

  /** A base name "stem.ext" has extension ".ext" and stem `stem`. */
  lemma SplitExtension(stem: string, ext: string)
    requires stem != "" && '.' !in ext
    requires stem + "." + ext != ".."
    ensures NameExtension(stem + "." + ext) == "." + ext
    ensures NameStem(stem + "." + ext) == stem
  {
    var b := stem + "." + ext;
    LastDotBeforeExtension(stem, ext);
    assert b[|stem|..] == "." + ext;
    assert b[..|stem|] == stem;
  }

  /** `path.basename` and `path.extname` split "dir/stem.ext" into its stem
      and ".ext". */
  lemma StemOfJoin(dir: string, stem: string, ext: string)
    requires stem != "" && Separator !in stem
    requires '.' !in ext && Separator !in ext
    requires stem + "." + ext != ".."
    ensures Stem(dir + [Separator] + stem + "." + ext) == stem
    ensures Extname(dir + [Separator] + stem + "." + ext) == "." + ext
  {
    var name := stem + "." + ext;
    assert dir + [Separator] + stem + "." + ext == dir + [Separator] + name;
    assert Separator !in name by {
      assert forall c :: c in name ==> c in stem || c == '.' || c in ext;
    }
    BasenameOfJoin(dir, name);
    SplitExtension(stem, ext);
  }
}
