/** The part of slash-separated path handling that the in-memory store's
    List relies on: cleaning a path and taking its parent directory. */
module Paths {

  /** No two consecutive separators. */
  predicate NoDoubleSlash(p: string)
  {
    forall i :: 0 <= i < |p| - 1 ==> !(p[i] == '/' && p[i + 1] == '/')
  }

  /** A path already in the form Clean produces: non-empty, no repeated
      separators, and no trailing separator unless it is the root "/". */
  predicate IsClean(p: string)
  {
    p != "" && NoDoubleSlash(p) && (|p| > 1 ==> p[|p| - 1] != '/')
  }

  /** Index of the last separator in p, or -1 when p has none. */
  function LastSlash(p: string): (i: int)
    ensures -1 <= i < |p|
    ensures i >= 0 ==> p[i] == '/'
    ensures forall j :: i < j < |p| ==> p[j] != '/'
  {
    if p == [] then -1
    else if p[|p| - 1] == '/' then |p| - 1
    else LastSlash(p[..|p| - 1])
  }

  /** Replaces every run of separators by a single one. */
  function Collapse(p: string): (r: string)
    ensures NoDoubleSlash(r)
    ensures |r| <= |p|
    ensures p != [] ==> r != [] && r[0] == p[0] && r[|r| - 1] == p[|p| - 1]
  {
    if |p| <= 1 then p
    else if p[0] == '/' && p[1] == '/' then Collapse(p[1..])
    else [p[0]] + Collapse(p[1..])
  }

  /** Lexical cleaning: the empty path becomes ".", runs of separators
      become one, and a trailing separator is dropped except at the root. */
  function Clean(p: string): (r: string)
    ensures IsClean(r)
  {
    if p == "" then "."
    else
      var q := Collapse(p);
      if |q| > 1 && q[|q| - 1] == '/' then q[..|q| - 1] else q
  }

  /** Everything before the last separator, cleaned: the directory that
      holds p ("." when p has no separator). */
  function Dir(p: string): (r: string)
    ensures IsClean(r)
  {
    Clean(p[..LastSlash(p) + 1])
  }

  lemma {:induction false} CollapseKeepsCollapsed(p: string)
    requires NoDoubleSlash(p)
    ensures Collapse(p) == p
  {
    if |p| > 1 {
      assert NoDoubleSlash(p[1..]) by {
        forall i | 0 <= i < |p[1..]| - 1
          ensures !(p[1..][i] == '/' && p[1..][i + 1] == '/')
        {
          assert p[1..][i] == p[i + 1] && p[1..][i + 1] == p[i + 2];
        }
      }
      CollapseKeepsCollapsed(p[1..]);
      assert p == [p[0]] + p[1..];
    }
  }

  /** A doubled separator collapses like a single one. With
      CollapseKeepsCollapsed this fixes Collapse on every input: every
      character is kept in order, and only repeated separators go. */
  lemma {:induction false} CollapseDoubled(a: string, b: string)
    ensures Collapse(a + "//" + b) == Collapse(a + "/" + b)
  {
    var p, q := a + "//" + b, a + "/" + b;
    if a == [] {
      assert p[1..] == q;
    } else {
      assert p[0] == q[0] == a[0];
      assert p[1] == q[1];
      assert p[1..] == a[1..] + "//" + b;
      assert q[1..] == a[1..] + "/" + b;
      CollapseDoubled(a[1..], b);
    }
  }

  /** A clean path is its own cleaning. */
  lemma CleanKeepsClean(p: string)
    requires IsClean(p)
    ensures Clean(p) == p
  {
    CollapseKeepsCollapsed(p);
  }

  /** Cleaning twice is cleaning once. */
  lemma CleanIdempotent(p: string)
    ensures Clean(Clean(p)) == Clean(p)
  {
    CleanKeepsClean(Clean(p));
  }

  /** A separator with none after it is the last one. */
  lemma {:induction false} LastSlashAt(p: string, i: int)
    requires 0 <= i < |p| && p[i] == '/'
    requires forall j :: i < j < |p| ==> p[j] != '/'
    ensures LastSlash(p) == i
  {
    if i < |p| - 1 {
      var q := p[..|p| - 1];
      assert q[i] == '/';
      assert forall j :: i < j < |q| ==> q[j] == p[j];
      LastSlashAt(q, i);
    }
  }

  /** In "d/name" with a separator-free name, the last separator is the one
      just after d. */
  lemma LastSlashOfChild(d: string, name: string)
    requires '/' !in name
    ensures LastSlash(d + "/" + name) == |d|
  {
    var p := d + "/" + name;
    assert p[|d|] == '/';
    assert p[|d| + 1..] == name;
    assert forall j :: |d| < j < |p| ==> p[j] in name by {
      forall j | |d| < j < |p|
        ensures p[j] in name
      {
        assert p[j] == p[|d| + 1..][j - |d| - 1];
      }
    }
    LastSlashAt(p, |d|);
  }

  /** Cleaning a clean directory with one separator appended gives the
      directory back. */
  lemma CleanWithSlash(d: string)
    requires IsClean(d)
    ensures Clean(d + "/") == d
  {
    if d == "/" {
      assert Collapse("//") == "/";
    } else {
      assert NoDoubleSlash(d + "/");
      CollapseKeepsCollapsed(d + "/");
      assert (d + "/")[..|d|] == d;
    }
  }

  /** The directory of "d/name", for a clean d and a non-empty name without
      separators, is d: a store path joined from a directory and an entity's
      name is listed under that directory. */
  lemma DirOfChild(d: string, name: string)
    requires IsClean(d)
    requires name != "" && '/' !in name
    ensures Dir(d + "/" + name) == d
  {
    LastSlashOfChild(d, name);
    assert (d + "/" + name)[..|d| + 1] == d + "/";
    CleanWithSlash(d);
  }
}
