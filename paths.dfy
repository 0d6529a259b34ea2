/** POSIX path manipulation as Python's `os.path` performs it on strings:
    `join`, `basename`, `dirname` and the root part of `splitext`. */
module Paths {

  predicate NoSlash(s: string) { forall i :: 0 <= i < |s| ==> s[i] != '/' }

  predicate IsAbsolute(s: string) { |s| > 0 && s[0] == '/' }

  /** Index of the last occurrence of `c` in `s`, or -1 (Python's `str.rfind`). */
  function LastIndex(s: string, c: char): (k: int)
    ensures -1 <= k < |s|
    ensures k >= 0 ==> s[k] == c
    ensures forall i :: k < i < |s| ==> s[i] != c
    decreases |s|
  {
    if s == [] then -1
    else if s[|s| - 1] == c then |s| - 1
    else LastIndex(s[..|s| - 1], c)
  }

  /** `os.path.join(a, b)`: an absolute `b` replaces `a`; otherwise `b` is
      appended to `a`, with a slash between them unless `a` is empty or
      already ends with one. */
  function Join(a: string, b: string): (r: string)
    ensures IsAbsolute(b) ==> r == b
    ensures !IsAbsolute(b) ==> |a| + |b| <= |r| <= |a| + |b| + 1 && a <= r && r[|r| - |b|..] == b
    ensures !IsAbsolute(b) && |r| == |a| + |b| + 1 ==> r[|a|] == '/'
    ensures !IsAbsolute(b) ==> (|r| == |a| + |b| + 1 <==> a != [] && a[|a| - 1] != '/')
  {
    if IsAbsolute(b) then b
    else if a == [] || a[|a| - 1] == '/' then a + b
    else a + "/" + b
  }

  /** `os.path.basename(p)`: everything after the last slash. */
  function Basename(p: string): (r: string)
    ensures NoSlash(r)
    ensures |r| <= |p| && p[|p| - |r|..] == r
  {
    p[LastIndex(p, '/') + 1..]
  }

  predicate AllSlashes(s: string) { forall i :: 0 <= i < |s| ==> s[i] == '/' }

  function TrimTrailingSlashes(s: string): (r: string)
    ensures r <= s
    ensures r == [] || r[|r| - 1] != '/'
    ensures AllSlashes(s[|r|..])
    ensures !AllSlashes(s) ==> r != []
    decreases |s|
  {
    if s != [] && s[|s| - 1] == '/' then TrimTrailingSlashes(s[..|s| - 1]) else s
  }

  /** `os.path.dirname(p)`: everything up to the last slash, with trailing
      slashes removed unless the head consists of slashes only. */
  function Dirname(p: string): (r: string)
    ensures r <= p
    ensures NoSlash(p) ==> r == []
    ensures var head := p[..LastIndex(p, '/') + 1];
      r <= head && AllSlashes(head[|r|..])
      && (head != [] ==> r != [])
      && (AllSlashes(head) ==> r == head)
      && (r != [] && r[|r| - 1] == '/' ==> AllSlashes(r))
  {
    var head := p[..LastIndex(p, '/') + 1];
    if head != [] && !AllSlashes(head) then TrimTrailingSlashes(head) else head
  }

  /** `dirname` undoes `join` of a slash-free name onto a directory that
      does not end with a slash. */
  lemma DirnameOfJoin(dir: string, name: string)
    requires dir != [] && dir[|dir| - 1] != '/' && NoSlash(name)
    ensures Dirname(Join(dir, name)) == dir
  {
  }

  predicate HasNonDot(s: string) { exists i :: 0 <= i < |s| && s[i] != '.' }

  /** `os.path.splitext(p)[0]`: `p` without its extension.  The extension
      starts at the last dot of the last component, unless that component has
      only dots before it (a leading-dot name such as ".hdr" has no extension). */
  function ExtRoot(p: string): (r: string)
    ensures r <= p
    ensures r == p || (|r| < |p| && p[|r|] == '.' && forall i :: |r| < i < |p| ==> p[i] != '.' && p[i] != '/')
  {
    var slash := LastIndex(p, '/');
    var dot := LastIndex(p, '.');
    if dot > slash && HasNonDot(p[slash + 1..dot]) then p[..dot] else p
  }

  /** The name a histogram log is grouped and summarised under:
      `os.path.splitext(os.path.basename(p))[0]`. */
  function StemOf(p: string): (r: string)
    ensures NoSlash(r)
  {
    var base := Basename(p);
    var r := ExtRoot(base);
    assert forall i :: 0 <= i < |r| ==> r[i] == base[i];
    r
  }

  /** Joining a relative name to a directory yields a path that ends with
      that name, and whose last component is that name when it has no slash. */
  lemma JoinEndsWith(dir: string, name: string)
    requires !IsAbsolute(name)
    ensures var j := Join(dir, name); |name| <= |j| && j[|j| - |name|..] == name
    ensures NoSlash(name) && (name != [] || dir == []) ==> Basename(Join(dir, name)) == name
  {
    var j := Join(dir, name);
    var pre := j[..|j| - |name|];
    assert j == pre + name;
    if NoSlash(name) && (name != [] || dir == []) {
      BasenameAfterSlash(pre, name);
    }
  }

  /** The last slash of `pre + name` is the last character of `pre` when
      `pre` is empty or ends with a slash and `name` has none. */
  lemma {:induction false} LastSlashBeforeName(pre: string, name: string)
    requires NoSlash(name)
    requires pre == [] || pre[|pre| - 1] == '/'
    ensures LastIndex(pre + name, '/') == |pre| - 1
    decreases |name|
  {
    if name == [] {
      assert pre + name == pre;
    } else {
      var init := name[..|name| - 1];
      assert (pre + name)[..|pre + name| - 1] == pre + init;
      assert (pre + name)[|pre + name| - 1] == name[|name| - 1];
      LastSlashBeforeName(pre, init);
    }
  }

  /** The last component of `pre + name` is `name` when `pre` is empty or ends
      with a slash and `name` has none. */
  lemma BasenameAfterSlash(pre: string, name: string)
    requires NoSlash(name)
    requires pre == [] || pre[|pre| - 1] == '/'
    ensures Basename(pre + name) == name
  {
    LastSlashBeforeName(pre, name);
    assert (pre + name)[|pre|..] == name;
  }

  /** The root of `name + ".hdr"` is `name` when `name` is a single path
      component that is not all dots: `splitext` drops exactly the `.hdr`
      that `{dir}/{name}.hdr` and `{filename_no_ext}.hdr` append. */
  lemma ExtRootOfHdr(name: string)
    requires NoSlash(name) && HasNonDot(name)
    ensures ExtRoot(name + ".hdr") == name
  {
    var p := name + ".hdr";
    assert p[..|name|] == name;
    var dot := LastIndex(p, '.');
    assert p[|name|] == '.';
    assert p[|name| + 1] == 'h' && p[|name| + 2] == 'd' && p[|name| + 3] == 'r';
    assert dot == |name|;
    assert LastIndex(p, '/') == -1;
    assert p[..dot] == name;
  }

  /** The grouping key of `pre + name + ".hdr"`, with `pre` a directory part
      ending in a slash, is `name`. */
  lemma StemOfHdr(pre: string, name: string)
    requires NoSlash(name) && HasNonDot(name)
    requires pre == [] || pre[|pre| - 1] == '/'
    ensures StemOf(pre + (name + ".hdr")) == name
  {
    BasenameAfterSlash(pre, name + ".hdr");
    ExtRootOfHdr(name);
  }

  /** Distinct relative names give distinct paths under the same directory:
      `os.path.join(dir, ip)` partitions `dir` by host address. */
  lemma JoinInjective(dir: string, x: string, y: string)
    requires !IsAbsolute(x) && !IsAbsolute(y)
    requires Join(dir, x) == Join(dir, y)
    ensures x == y
  {
    var pre := if dir == [] || dir[|dir| - 1] == '/' then dir else dir + "/";
    assert Join(dir, x) == pre + x;
    assert Join(dir, y) == pre + y;
    assert x == (pre + x)[|pre|..];
    assert y == (pre + y)[|pre|..];
  }
}
