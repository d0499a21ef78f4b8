/** POSIX path handling used by the core: `os.path.basename` keeps what follows
    the last '/' of a path (the whole path when it has none). */
module Paths {

  /** One past the index of the last '/' in `p`, or 0 when `p` has none
      (`p.rfind('/') + 1`). */
  function LastSeparatorEnd(p: string): (r: nat)
    ensures r <= |p|
    ensures r > 0 ==> p[r - 1] == '/'
    ensures forall k :: r <= k < |p| ==> p[k] != '/'
  {
    if p == [] then 0
    else if p[|p| - 1] == '/' then |p|
    else LastSeparatorEnd(p[..|p| - 1])
  }

  /** `os.path.basename(p)` on POSIX. */
  function Basename(p: string): string
  {
    p[LastSeparatorEnd(p)..]
  }

  /** The basename is the part of the path after its last '/': it is a suffix
      of the path, holds no '/', and is either the whole path or is preceded
      by a '/'. These three facts determine it. */
  lemma BasenameIsLastComponent(p: string)
    ensures var b := Basename(p);
      && |b| <= |p| && p[|p| - |b|..] == b
      && (forall k :: 0 <= k < |b| ==> b[k] != '/')
      && (|b| == |p| || p[|p| - |b| - 1] == '/')
  {
  }

  /** Any suffix with the three properties above is the basename. */
  lemma BasenameUnique(p: string, b: string)
    requires |b| <= |p| && p[|p| - |b|..] == b
    requires forall k :: 0 <= k < |b| ==> b[k] != '/'
    requires |b| == |p| || p[|p| - |b| - 1] == '/'
    ensures Basename(p) == b
  {
  }

  /** Taking the basename twice changes nothing. */
  lemma BasenameIdempotent(p: string)
    ensures Basename(Basename(p)) == Basename(p)
  {
  }
}
