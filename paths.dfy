/** The parts of Python's `pathlib.PurePosixPath` the export script relies on
    (with the suffix rule of Python 3.12 and 3.13):
    `name` (the last component) and `stem` / `suffix` (the name split at its
    final dot), plus joining a directory and a file name with '/'. */
module Paths {
  import opened Wrappers
  import opened Strings

  /** A component that pathlib keeps: empty components (from repeated or
      trailing slashes) and "." components are dropped when a path is parsed. */
  predicate IsComponent(c: string)
  {
    c != "" && c != "." && '/' !in c
  }

  /** `PurePosixPath(p).name`: the last kept component, or "" if there is none. */
  function Name(p: string): (n: string)
    ensures n == "" || IsComponent(n)
    decreases |p|
  {
    match SplitLast(p, '/')
    case None => if p == "." then "" else p
    case Some((dir, last)) => if last == "" || last == "." then Name(dir) else last
  }

  /** `'/'.join([dir, file])`. */
  function Join(dir: string, file: string): (p: string)
    ensures |p| == |dir| + 1 + |file|
    ensures p[..|dir|] == dir && p[|dir|] == '/' && p[|dir| + 1..] == file
  {
    dir + "/" + file
  }

  /** Whatever the directory, the name of `dir/file` is `file` when `file`
      is a single component. */
  lemma NameOfJoin(dir: string, file: string)
    requires IsComponent(file)
    ensures Name(Join(dir, file)) == file
  {
    SplitLastOfJoin(dir, '/', file);
  }

  /** Trailing slashes and "." components do not change the name. */
  lemma NameIgnoresTrailingSeparators(p: string)
    ensures Name(p + "/") == Name(p) && Name(p + "/.") == Name(p)
  {
    SplitLastOfJoin(p, '/', "");
    assert p + "/" == p + ['/'] + "";
    SplitLastOfJoin(p, '/', ".");
    assert p + "/." == p + ['/'] + ".";
  }

  /** A single component is its own name. */
  lemma NameOfComponent(c: string)
    requires IsComponent(c)
    ensures Name(c) == c
  {
  }

  /** `PurePath.suffix`: from the final dot on, unless that dot is the first
      or the last character of the name. */
  function Suffix(name: string): (r: string)
    ensures r == "" || (r[0] == '.' && '.' !in r[1..] && |r| > 1)
  {
    match SplitLast(name, '.')
    case None => ""
    case Some((base, ext)) => if |base| > 0 && |ext| > 0 then "." + ext else ""
  }

  /** `PurePath.stem`: the name without its suffix. Its laws are
      StemSuffixPartition and StemOfAddedSuffix. */
  function Stem(name: string): (stem: string)
    ensures |stem| <= |name| && name[..|stem|] == stem
    ensures stem == name || name[|stem|] == '.'
  {
    match SplitLast(name, '.')
    case None => name
    case Some((base, ext)) => if |base| > 0 && |ext| > 0 then base else name
  }

  /** The stem and the suffix partition the name, and the stem is never empty
      unless the name is. */
  lemma StemSuffixPartition(name: string)
    ensures Stem(name) + Suffix(name) == name
    ensures |Stem(name)| > 0 <==> |name| > 0
  {
  }

  /** Appending a suffix to a stem that is not empty gives a name whose stem
      is that stem back. */
  lemma StemOfAddedSuffix(stem: string, ext: string)
    requires |stem| > 0 && |ext| > 0 && '.' !in ext
    ensures Stem(stem + "." + ext) == stem && Suffix(stem + "." + ext) == "." + ext
  {
    SplitLastOfJoin(stem, '.', ext);
  }

  /** A checkpoint file in the working directory. */
  lemma StemOfCheckpointPath()
    ensures Stem(Name("model.pth")) == "model"
  {
    assert Name("model.pth") == "model.pth" by {
      NameOfComponent("model.pth");
    }
    assert Stem("model.pth") == "model" by {
      assert "model.pth" == "model" + ['.'] + "pth";
      SplitLastOfJoin("model", '.', "pth");
    }
  }

  /** A checkpoint file in a sub-directory. */
  lemma StemOfNestedCheckpointPath()
    ensures Stem(Name("weights/yolox_s.pth")) == "yolox_s"
  {
    assert Name("weights/yolox_s.pth") == "yolox_s.pth" by {
      assert "weights/yolox_s.pth" == "weights" + ['/'] + "yolox_s.pth";
      NameOfJoin("weights", "yolox_s.pth");
    }
    assert Stem("yolox_s.pth") == "yolox_s" by {
      assert "yolox_s.pth" == "yolox_s" + ['.'] + "pth";
      SplitLastOfJoin("yolox_s", '.', "pth");
    }
  }

  /** A name with several dots loses only the last suffix; a leading dot is
      not a suffix. */
  lemma StemOfDottedNames()
    ensures Stem("archive.tar.gz") == "archive.tar"
    ensures Stem(".hidden") == ".hidden"
  {
    assert "archive.tar.gz" == "archive.tar" + ['.'] + "gz";
    SplitLastOfJoin("archive.tar", '.', "gz");
    assert ".hidden" == "" + ['.'] + "hidden";
    SplitLastOfJoin("", '.', "hidden");
  }
}
