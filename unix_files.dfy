/**
 * `java.io.File` path handling on a Unix file system: the normalisation done by
 * the constructor and `getParent`.
 */
module UnixFiles {
  import opened Wrappers

  const SeparatorChar: char := '/'

  predicate NoDoubleSlash(p: string)
  {
    forall i :: 0 <= i < |p| - 1 ==> !(p[i] == '/' && p[i + 1] == '/')
  }

  /** The characters of `p` other than separators, in their order. */
  function WithoutSeparators(p: string): string
    decreases |p|
  {
    if |p| == 0 then [] else (if p[0] == '/' then [] else [p[0]]) + WithoutSeparators(p[1..])
  }

  /** Dropping a trailing separator keeps the other characters. */
  lemma {:induction false} WithoutTrailingSeparator(p: string)
    requires |p| > 0 && p[|p| - 1] == '/'
    ensures WithoutSeparators(p[..|p| - 1]) == WithoutSeparators(p)
    decreases |p|
  {
    if |p| > 1 {
      WithoutTrailingSeparator(p[1..]);
      assert p[1..][..|p[1..]| - 1] == p[..|p| - 1][1..];
    }
  }

  /** Each run of separators collapsed into one; the other characters are kept, in order. */
  function CollapseSlashes(p: string): (r: string)
    ensures NoDoubleSlash(r)
    ensures WithoutSeparators(r) == WithoutSeparators(p)
    ensures |r| <= |p|
    ensures (|r| > 0 && r[0] == '/') <==> (|p| > 0 && p[0] == '/')
    ensures |r| == 0 <==> |p| == 0
    decreases |p|
  {
    if |p| == 0 then []
    else if |p| >= 2 && p[0] == '/' && p[1] == '/' then CollapseSlashes(p[1..])
    else
      var rest := CollapseSlashes(p[1..]);
      assert forall i :: 1 <= i < |rest| ==> ([p[0]] + rest)[i] == rest[i - 1];
      assert ([p[0]] + rest)[1..] == rest;
      [p[0]] + rest
  }

  /** Whether `r` ends in a separator. */
  predicate EndsInSeparator(r: string)
  {
    |r| > 0 && r[|r| - 1] == '/'
  }

  /** Collapsing one more character: a separator after a separator is dropped, anything else appended. */
  lemma {:induction false} CollapseAppend(p: string, c: char)
    ensures CollapseSlashes(p + [c])
            == if c == '/' && EndsInSeparator(CollapseSlashes(p)) then CollapseSlashes(p) else CollapseSlashes(p) + [c]
    decreases |p|
  {
    if |p| == 1 {
      CollapseSingle(p[0]);
      CollapseSingle(c);
      assert p + [c] == [p[0], c];
    } else if |p| >= 2 {
      var q := p + [c];
      assert q[0] == p[0] && q[1] == p[1] && q[1..] == p[1..] + [c];
      CollapseAppend(p[1..], c);
      if !(p[0] == '/' && p[1] == '/') {
        var rest := CollapseSlashes(p[1..]);
        assert CollapseSlashes(p) == [p[0]] + rest;
        assert |rest| > 0;
        assert EndsInSeparator([p[0]] + rest) == EndsInSeparator(rest);
        assert ([p[0]] + rest) + [c] == [p[0]] + (rest + [c]);
      }
    }
  }

  lemma CollapseSingle(c: char)
    ensures CollapseSlashes([c]) == [c]
  {
    assert [c][1..] == [];
  }

  /** The path a `File` holds: separators collapsed and a trailing one dropped, unless the path is the root. */
  function Normalize(p: string): (r: string)
    ensures NoDoubleSlash(r)
    ensures |r| > 1 ==> r[|r| - 1] != '/'
    ensures r == CollapseSlashes(p) || (|r| > 0 && r + "/" == CollapseSlashes(p))
    ensures WithoutSeparators(r) == WithoutSeparators(p)
    ensures (|r| > 0 && r[0] == '/') <==> (|p| > 0 && p[0] == '/')
    ensures |r| == 0 <==> |p| == 0
  {
    var c := CollapseSlashes(p);
    if |c| > 1 && c[|c| - 1] == '/' then
      WithoutTrailingSeparator(c);
      assert c[..|c| - 1] + "/" == c;
      c[..|c| - 1]
    else c
  }

  /** The index of the last separator, or -1. */
  function LastSeparator(p: string): (r: int)
    ensures -1 <= r < |p|
    ensures r >= 0 ==> p[r] == '/'
    ensures forall i :: r < i < |p| ==> p[i] != '/'
    decreases |p|
  {
    if |p| == 0 then -1
    else if p[|p| - 1] == '/' then |p| - 1
    else LastSeparator(p[..|p| - 1])
  }

  /** `new File(path).getParent()`: `None` where Java returns `null`. */
  function Parent(path: string): (r: Option<string>)
    ensures r.None? <==> (forall i :: 0 <= i < |Normalize(path)| ==> Normalize(path)[i] != '/') || Normalize(path) == "/"
    ensures r.Some? ==> |r.value| < |Normalize(path)| && r.value == Normalize(path)[..|r.value|]
    ensures r.Some? ==>
              || (r.value == "/" && LastSeparator(Normalize(path)) == 0)
              || (|r.value| > 0 && Normalize(path)[|r.value|] == '/' && forall i :: |r.value| < i < |Normalize(path)| ==> Normalize(path)[i] != '/')
  {
    var p := Normalize(path);
    var prefix := if |p| > 0 && p[0] == '/' then 1 else 0;
    var index := LastSeparator(p);
    if index < prefix then
      if prefix > 0 && |p| > prefix then Some(p[..prefix]) else None
    else Some(p[..index])
  }

  /** A path without repeated separators is kept as it is by collapsing. */
  lemma {:induction false} CollapseClean(p: string)
    requires NoDoubleSlash(p)
    ensures CollapseSlashes(p) == p
    decreases |p|
  {
    if |p| > 0 {
      assert NoDoubleSlash(p[1..]) by {
        forall i | 0 <= i < |p[1..]| - 1 ensures !(p[1..][i] == '/' && p[1..][i + 1] == '/') {
          assert p[1..][i] == p[i + 1] && p[1..][i + 1] == p[i + 2];
        }
      }
      CollapseClean(p[1..]);
    }
  }

  /** The parent of `dir/name` is `dir` when the path is already in normal form. */
  lemma ParentOfEntry(dir: string, name: string)
    requires |dir| > 0 && |name| > 0
    requires NoDoubleSlash(dir + "/" + name)
    requires forall i :: 0 <= i < |name| ==> name[i] != '/'
    ensures Parent(dir + "/" + name) == Some(dir)
  {
    var p := dir + "/" + name;
    CollapseClean(p);
    assert p[|p| - 1] == name[|name| - 1];
    assert Normalize(p) == p;
    assert p[|dir|] == '/';
    assert forall i :: |dir| < i < |p| ==> p[i] == name[i - |dir| - 1];
    var index := LastSeparator(p);
    assert index == |dir|;
    assert p[..|dir|] == dir;
  }

  /** A name without any separator has no parent. */
  lemma ParentOfBareName(name: string)
    requires forall i :: 0 <= i < |name| ==> name[i] != '/'
    ensures Parent(name) == None
  {
    CollapseClean(name);
  }
}
