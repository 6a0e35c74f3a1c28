/** The two POSIX `path` functions the report tools use. */
module Paths {

  /** `path.join(dir, name)`. Normalisation of `.`, `..` and repeated
      separators is not modelled. */
  function Join(dir: string, name: string): string {
    dir + "/" + name
  }

  function StripTrailingSlashes(p: string): (r: string)
    ensures |r| <= |p| && r == p[..|r|]
    ensures r == [] || r[|r| - 1] != '/'
  {
    if p != [] && p[|p| - 1] == '/' then StripTrailingSlashes(p[..|p| - 1]) else p
  }

  /** The text after the last `/`. */
  function AfterLastSlash(p: string): (r: string)
    ensures '/' !in r
    ensures |r| <= |p| && r == p[|p| - |r|..]
    ensures |r| == |p| || p[|p| - |r| - 1] == '/'
  {
    if p == [] || p[|p| - 1] == '/' then []
    else AfterLastSlash(p[..|p| - 1]) + [p[|p| - 1]]
  }

  /** `path.basename(p)`: the last component, trailing separators ignored. */
  function Basename(p: string): (r: string)
    ensures '/' !in r
  {
    AfterLastSlash(StripTrailingSlashes(p))
  }

  lemma {:induction false} AfterLastSlashOfPlain(p: string)
    requires '/' !in p
    ensures AfterLastSlash(p) == p
  {
    if p != [] {
      AfterLastSlashOfPlain(p[..|p| - 1]);
      assert p == p[..|p| - 1] + [p[|p| - 1]];
    }
  }

  lemma {:induction false} AfterLastSlashOfSuffix(d: string, name: string)
    requires '/' !in name
    ensures AfterLastSlash(d + "/" + name) == name
    decreases |name|
  {
    var p := d + "/" + name;
    if name != [] {
      assert p[..|p| - 1] == d + "/" + name[..|name| - 1];
      AfterLastSlashOfSuffix(d, name[..|name| - 1]);
      assert name == name[..|name| - 1] + [name[|name| - 1]];
    }
  }

  /** A name without separators is its own base name ... */
  lemma BasenameOfPlain(name: string)
    requires '/' !in name
    ensures Basename(name) == name
  {
    if name != [] {
      assert name[|name| - 1] in name;
    }
    AfterLastSlashOfPlain(name);
  }

  /** ... the base name of a joined path is the name joined ... */
  lemma BasenameOfJoin(dir: string, name: string)
    requires '/' !in name && name != []
    ensures Basename(Join(dir, name)) == name
  {
    var p := Join(dir, name);
    assert p[|p| - 1] == name[|name| - 1];
    assert name[|name| - 1] in name;
    AfterLastSlashOfSuffix(dir, name);
  }

  /** ... and taking it twice is taking it once. */
  lemma BasenameIdempotent(p: string)
    ensures Basename(Basename(p)) == Basename(p)
  {
    BasenameOfPlain(Basename(p));
  }
}
