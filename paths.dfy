/** The parts of Go's `path/filepath` and `strings` packages the installer relies on. */
module Paths {

  /** `strings.HasSuffix`. */
  predicate HasSuffix(s: string, suffix: string)
  {
    |suffix| <= |s| && s[|s| - |suffix|..] == suffix
  }

  /** `filepath.Join(dir, name)` on Unix, without the lexical clean-up (see README). */
  function Join(dir: string, name: string): (p: string)
    ensures dir != "" && name != "" ==> p == dir + "/" + name
  {
    if dir == "" then name
    else if name == "" then dir
    else dir + "/" + name
  }

  /** Removes every trailing separator. */
  function TrimTrailingSeparators(p: string): (r: string)
    ensures r <= p
    ensures r == [] || r[|r| - 1] != '/'
  {
    if |p| > 0 && p[|p| - 1] == '/' then TrimTrailingSeparators(p[..|p| - 1]) else p
  }

  /** The characters after the last separator. */
  function LastElement(p: string): (r: string)
    ensures '/' !in r
    ensures |r| <= |p| && r == p[|p| - |r|..]
  {
    if p == [] || p[|p| - 1] == '/' then [] else LastElement(p[..|p| - 1]) + [p[|p| - 1]]
  }

  /** `filepath.Base`: the last element of a path, "." for the empty path and "/" for a path of separators only. */
  function Base(path: string): (b: string)
    ensures b != ""
    ensures b != "/" ==> '/' !in b
  {
    if path == "" then "."
    else
      var t := TrimTrailingSeparators(path);
      if t == "" then "/" else LastElement(t)
  }

  lemma {:induction false} LastElementAfterSeparator(dir: string, name: string)
    requires '/' !in name
    ensures LastElement(dir + "/" + name) == name
    decreases |name|
  {
    var p := dir + "/" + name;
    if name == [] {
      assert p[|p| - 1] == '/';
    } else {
      var shorter := name[..|name| - 1];
      assert p[..|p| - 1] == dir + "/" + shorter;
      DropLastSlashFree(name);
      LastElementAfterSeparator(dir, shorter);
      assert p[|p| - 1] == name[|name| - 1];
      assert shorter + [name[|name| - 1]] == name;
    }
  }

  /** The base name of a file joined onto a directory is the file name: the installer's
      `Join(dir, Base(path))` gives back the path it selected. */
  lemma BaseOfJoin(dir: string, name: string)
    requires name != "" && '/' !in name
    ensures Base(Join(dir, name)) == name
  {
    var p := Join(dir, name);
    if dir == "" {
      assert p == name;
      assert p == [] + name;
      assert LastElement(name) == name by {
        LastElementOfSlashFree(name);
      }
    } else {
      assert p == dir + "/" + name;
      LastElementAfterSeparator(dir, name);
    }
    assert p[|p| - 1] == name[|name| - 1];
  }

  lemma {:induction false} LastElementOfSlashFree(name: string)
    requires '/' !in name
    ensures LastElement(name) == name
    decreases |name|
  {
    if name != [] {
      var shorter := name[..|name| - 1];
      DropLastSlashFree(name);
      LastElementOfSlashFree(shorter);
      assert name[|name| - 1] != '/';
      assert LastElement(name) == LastElement(shorter) + [name[|name| - 1]];
      assert shorter + [name[|name| - 1]] == name;
    }
  }

  lemma DropLastSlashFree(name: string)
    requires name != [] && '/' !in name
    ensures '/' !in name[..|name| - 1]
  {
    var shorter := name[..|name| - 1];
    forall i | 0 <= i < |shorter| ensures shorter[i] != '/' {
      assert shorter[i] == name[i];
    }
  }
}
