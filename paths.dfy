/**
 * System.IO.Path on a platform whose only directory separator is '/':
 * `Path.Combine`, `Path.ChangeExtension` and `Path.GetFileName`.
 */
module Paths {

  const Separator: char := '/'

  predicate IsRooted(p: string) {
    p != [] && p[0] == Separator
  }

  /** `Path.Combine(a, b)`: a rooted or empty-other argument wins; otherwise join with one separator. */
  function Combine(a: string, b: string): string {
    if b == [] then a
    else if a == [] then b
    else if IsRooted(b) then b
    else if a[|a| - 1] == Separator then a + b
    else a + [Separator] + b
  }

  /**
   * Index of the last '.' in `p[..end]` that comes after the last separator, if any:
   * the scan `Path.ChangeExtension` makes from the end of the path.
   */
  function ExtensionDot(p: string, end: nat): (r: int)
    requires end <= |p|
    ensures -1 <= r < end
    ensures r >= 0 ==> p[r] == '.' && forall k :: r < k < end ==> p[k] != '.' && p[k] != Separator
  {
    if end == 0 then -1
    else if p[end - 1] == '.' then end - 1
    else if p[end - 1] == Separator then -1
    else ExtensionDot(p, end - 1)
  }

  /** `Path.ChangeExtension(p, ext)` for a non-null extension. */
  function ChangeExtension(p: string, ext: string): string {
    if p == [] then p
    else
      var dot := ExtensionDot(p, |p|);
      var stem := if dot >= 0 then p[..dot] else p;
      if ext == [] || ext[0] != '.' then stem + "." + ext else stem + ext
  }

  /** Index just past the last separator in `p[..end]` (0 when there is none). */
  function NameStart(p: string, end: nat): (r: nat)
    requires end <= |p|
    ensures r <= end
    ensures forall k :: r <= k < end ==> p[k] != Separator
    ensures r > 0 ==> p[r - 1] == Separator
  {
    if end == 0 then 0
    else if p[end - 1] == Separator then end
    else NameStart(p, end - 1)
  }

  /** `Path.GetFileName(p)`: what follows the last separator. */
  function GetFileName(p: string): string {
    p[NameStart(p, |p|)..]
  }

  lemma {:induction false} NameStartAfter(p: string, prefix: nat, end: nat)
    requires 0 < prefix <= end <= |p|
    requires p[prefix - 1] == Separator
    requires forall k :: prefix <= k < end ==> p[k] != Separator
    ensures NameStart(p, end) == prefix
  {
    if end > prefix {
      NameStartAfter(p, prefix, end - 1);
    }
  }

  /** The file name of `dir + "/" + name` is `name` when `name` holds no separator. */
  lemma FileNameOfJoin(dir: string, name: string)
    requires dir != [] && dir[|dir| - 1] == Separator
    requires Separator !in name
    ensures GetFileName(dir + name) == name
  {
    var p := dir + name;
    NameStartAfter(p, |dir|, |p|);
  }

  /** Changing the extension of `stem + "." + previous` replaces exactly the old extension. */
  lemma ChangeExtensionReplaces(stem: string, previous: string, ext: string)
    requires '.' !in previous && Separator !in previous
    requires ext != [] && ext[0] != '.'
    ensures ChangeExtension(stem + ("." + previous), ext) == stem + ("." + ext)
  {
    var p := stem + ("." + previous);
    ExtensionDotAt(p, |stem|, |p|);
    assert p[..|stem|] == stem;
    assert stem + "." + ext == stem + ("." + ext);
  }

  lemma {:induction false} ExtensionDotAt(p: string, dot: nat, end: nat)
    requires dot < end <= |p|
    requires p[dot] == '.'
    requires forall k :: dot < k < end ==> p[k] != '.' && p[k] != Separator
    ensures ExtensionDot(p, end) == dot
  {
    if end - 1 > dot {
      ExtensionDotAt(p, dot, end - 1);
    }
  }
}
