/** The `os.path.join` and `os.path.basename` the scripts call, with the POSIX
    behaviour of Python's `posixpath`: `/` is the only separator. */
module Paths {
  import opened Text

  const Sep: char := '/'

  /** `os.path.join(a, b)`: an absolute `b` replaces `a`; otherwise `b` is
      appended, with one separator unless `a` is empty or already ends in one. */
  function Join(a: string, b: string): (r: string)
    ensures |b| > 0 && b[0] == Sep ==> r == b
    ensures (|b| == 0 || b[0] != Sep) && (a == [] || a[|a| - 1] == Sep) ==> r == a + b
    ensures (|b| == 0 || b[0] != Sep) && a != [] && a[|a| - 1] != Sep ==> r == a + [Sep] + b
  {
    if |b| > 0 && b[0] == Sep then b
    else if a == [] || a[|a| - 1] == Sep then a + b
    else a + [Sep] + b
  }

  /** The joined path always ends with its last component. */
  lemma JoinEndsWith(a: string, b: string)
    ensures EndsWith(Join(a, b), b)
  {
    var r := Join(a, b);
    assert r[|r| - |b|..] == b;
  }

  /** Position just after the last separator of `p`, 0 when there is none. */
  function BaseStart(p: string): (k: nat)
    ensures k <= |p|
    ensures k > 0 ==> p[k - 1] == Sep
    ensures forall i :: k <= i < |p| ==> p[i] != Sep
  {
    if p == [] || p[|p| - 1] == Sep then |p| else BaseStart(p[..|p| - 1])
  }

  /** `os.path.basename(p)`: the part after the last separator (all of `p`
      when it has none). */
  function Basename(p: string): (r: string)
    ensures Sep !in r
    ensures EndsWith(p, r)
    ensures |r| < |p| ==> p[|p| - |r| - 1] == Sep
  {
    p[BaseStart(p)..]
  }

  /** The basename is empty exactly when the path is empty or ends in a separator. */
  lemma BasenameEmpty(p: string)
    ensures Basename(p) == [] <==> p == [] || p[|p| - 1] == Sep
  {
    if p != [] && p[|p| - 1] != Sep {
      assert p[|p| - 1] in Basename(p) by {
        assert BaseStart(p) <= |p| - 1;
      }
    }
  }

  /** Joining a separator-free name under a relative directory: the directory,
      one separator and the name. */
  lemma JoinName(dir: string, name: string)
    requires dir != [] && dir[|dir| - 1] != Sep
    requires name == [] || name[0] != Sep
    ensures Join(dir, name) == dir + [Sep] + name
  {
  }
}
