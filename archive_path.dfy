/**
 * CAD_SetArchivePath: give an object the file it is archived to, and name it after that
 * file: the text after the last path separator, or the whole path when there is no
 * separator or nothing follows the last one.
 */
module ArchivePath {
  import opened Wrappers

  /** PATHSEPC of the POSIX builds; the Windows build uses '\\', and every function
      below takes the separator as a parameter. */
  const PATHSEPC: char := '/'

  /** strrchr: the index of the last occurrence of `c` in `s`, if any. */
  function LastIndexOf(s: string, c: char): (r: Option<nat>)
    ensures r.None? <==> c !in s
    ensures r.Some? ==> r.value < |s| && s[r.value] == c && c !in s[r.value + 1..]
    decreases |s|
  {
    if s == [] then None
    else if s[|s| - 1] == c then Some(|s| - 1)
    else
      var r := LastIndexOf(s[..|s| - 1], c);
      assert s == s[..|s| - 1] + [s[|s| - 1]];
      if r.Some? then
        assert s[r.value + 1..] == s[..|s| - 1][r.value + 1..] + [s[|s| - 1]];
        r
      else r
  }

  /** The name CAD_SetArchivePath gives an object archived at `path`. */
  function ObjectName(path: string, sep: char): (name: string)
    ensures |name| <= |path| && path[|path| - |name|..] == name
    ensures sep !in path ==> name == path
    ensures |path| > 0 && path[|path| - 1] == sep ==> name == path
    ensures name == "" <==> path == ""
    ensures sep in path && path[|path| - 1] != sep ==>
              && sep !in name && |name| < |path| && path[|path| - |name| - 1] == sep
  {
    var r := LastIndexOf(path, sep);
    if r.Some? && r.value + 1 < |path| then path[r.value + 1..] else path
  }

  /** The name is the same text whatever the rest of the path: two paths that end in the
      same separator-free, non-empty file name give their objects the same name. */
  lemma NameIsLastComponent(dir: string, file: string, sep: char)
    requires file != "" && sep !in file
    ensures ObjectName(dir + [sep] + file, sep) == file
  {
    var path := dir + [sep] + file;
    var name := ObjectName(path, sep);
    assert path[|path| - 1] == file[|file| - 1];
    assert path[|dir|] == sep;
    assert sep in path;
    assert forall k :: |dir| < k < |path| ==> path[k] == file[k - |dir| - 1];
    assert forall k :: |path| - |name| <= k < |path| ==> path[k] == name[k - |path| + |name|];
    assert |name| == |file|;
    assert path[|path| - |file|..] == file;
  }

  /** A framework object as far as CAD_SetArchivePath touches it. */
  class ArchivedObject {
    var name: string
    var archivePath: string

    constructor (name0: string)
      ensures name == name0 && archivePath == ""
    {
      name := name0;
      archivePath := "";
    }

    /** CAD_SetArchivePath: the archive path is `path` on every branch, and the name is
        derived from it. */
    method SetArchivePath(path: string)
      modifies this
      ensures archivePath == path
      ensures name == ObjectName(path, PATHSEPC)
    {
      archivePath := path;
      var c := LastIndexOf(path, PATHSEPC);
      if c.Some? && c.value + 1 < |path| {
        name := path[c.value + 1..];
      } else {
        name := path;
      }
    }
  }
}
