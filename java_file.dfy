/**
 * The path arithmetic of `java.io.File` on a Unix file system, as its
 * documentation and `UnixFileSystem` define it: a pathname is normalized
 * (runs of '/' collapsed, a trailing '/' dropped), and `File(parent, child)`
 * resolves the normalized child against the parent's path.  By the
 * documented rule for `File(File parent, String child)`, an EMPTY parent
 * resolves the child against the system's default parent directory, which
 * on Unix is the root "/".
 */
module JavaFile {

  datatype File = File(path: string)

  predicate NoDoubleSlash(s: string) {
    forall i :: 0 <= i < |s| - 1 ==> !(s[i] == '/' && s[i + 1] == '/')
  }

  /** A pathname in normal form. */
  predicate IsNormal(s: string) {
    NoDoubleSlash(s) && (|s| > 1 ==> s[|s| - 1] != '/')
  }

  /** Collapses every run of '/' into one. */
  function Collapse(s: string): (r: string)
    ensures NoDoubleSlash(r)
    ensures |r| <= |s| && (|s| > 0 ==> |r| > 0 && r[0] == s[0])
    ensures NoDoubleSlash(s) ==> r == s
  {
    if |s| < 2 then s
    else if s[0] == '/' && s[1] == '/' then Collapse(s[1..])
    else [s[0]] + Collapse(s[1..])
  }

  /** The normal form of a pathname; it keeps the first character. */
  function Normalize(s: string): (r: string)
    ensures IsNormal(r)
    ensures IsNormal(s) ==> r == s
    ensures |s| > 0 ==> |r| > 0 && r[0] == s[0]
  {
    var c := Collapse(s);
    if |c| > 1 && c[|c| - 1] == '/' then c[..|c| - 1] else c
  }

  /** `UnixFileSystem.resolve`: joins a parent path and a normalized child path. */
  function Resolve(parent: string, child: string): string {
    if child == "" then parent
    else if child[0] == '/' then (if parent == "/" then child else parent + child)
    else if parent == "/" then parent + child
    else parent + "/" + child
  }

  /** `File(pathname)`. */
  function FromPath(pathname: string): File {
    File(Normalize(pathname))
  }

  /** `File(parent, child)`; an empty parent stands for the root directory. */
  function Child(parent: File, child: string): File {
    if parent.path == "" then File(Resolve("/", Normalize(child)))
    else File(Resolve(parent.path, Normalize(child)))
  }

  /** Joining anything under a parent that is empty or absolute gives an absolute path. */
  lemma ChildOfRootIsAbsolute(parent: File, child: string)
    requires parent.path == "" || parent.path[0] == '/'
    ensures |Child(parent, child).path| > 0 && Child(parent, child).path[0] == '/'
  {
  }

  /** A normalized, relative child under a non-empty, non-root parent is appended after one '/'. */
  lemma ChildAppends(parent: File, child: string)
    requires parent.path != "" && parent.path != "/"
    requires IsNormal(child) && child != "" && child[0] != '/'
    ensures Child(parent, child).path == parent.path + "/" + child
  {
  }
}
