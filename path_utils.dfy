/** File-name and directory parts of a '/'-separated path (lib/path_utils.cc). */
module PathUtils {
  import opened Wrappers

  const Separator: char := '/'

  /** Position of the last occurrence of `c` in `s` (std::string::rfind). */
  function LastIndexOf(s: string, c: char): (r: Option<nat>)
    ensures r.Some? ==> r.value < |s| && s[r.value] == c
    ensures r.Some? ==> forall k :: r.value < k < |s| ==> s[k] != c
    ensures r.None? <==> c !in s
  {
    if |s| == 0 then None
    else if s[|s| - 1] == c then Some(|s| - 1)
    else LastIndexOf(s[..|s| - 1], c)
  }

  /** Everything after the last separator, or the whole path when it has none. */
  function GetFileName(path: string): (r: string)
    ensures Separator !in r
    ensures Separator !in path ==> r == path
  {
    match LastIndexOf(path, Separator)
    case None => path
    case Some(pos) => path[pos + 1..]
  }

  /** Everything before the last separator, or the whole path when it has none. */
  function GetPath(path: string): (r: string)
    ensures |r| <= |path|
    ensures Separator !in path ==> r == path
  {
    match LastIndexOf(path, Separator)
    case None => path
    case Some(pos) => path[..pos]
  }

  /** Directory part, separator and file-name part put back together give the path. */
  lemma SplitReassembles(path: string)
    requires Separator in path
    ensures GetPath(path) + [Separator] + GetFileName(path) == path
  {
    var pos := LastIndexOf(path, Separator).value;
    assert path == path[..pos] + [path[pos]] + path[pos + 1..];
  }

  /** The file name is a suffix of the path. */
  lemma FileNameIsSuffix(path: string)
    ensures |GetFileName(path)| <= |path|
    ensures GetFileName(path) == path[|path| - |GetFileName(path)|..]
  {
  }

  /** Taking the file name twice changes nothing. */
  lemma FileNameIdempotent(path: string)
    ensures GetFileName(GetFileName(path)) == GetFileName(path)
  {
  }
}
