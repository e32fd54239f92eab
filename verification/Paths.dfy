// The checkpoint allowlist of internal/config/config.go: a string-prefix test
// over absolute paths, and what it means for path components.
module Paths {
  import opened Basics

  // A clean absolute path, as filepath.Abs yields it, by its components.
  type Path = seq<string>

  ghost predicate CleanComponent(c: string) {
    c != "" && '/' !in c && c != "." && c != ".."
  }

  ghost predicate Clean(p: Path) {
    forall i :: 0 <= i < |p| ==> CleanComponent(p[i])
  }

  function Render(p: Path): string {
    if p == [] then "/" else Tail(p)
  }

  function Tail(p: Path): string {
    if p == [] then "" else "/" + p[0] + Tail(p[1..])
  }

  // strings.HasPrefix(abs, dir + "/") || abs == dir
  predicate Accepts(abs: string, dir: string) {
    dir + "/" <= abs || abs == dir
  }

  // ValidateCheckpointPath as a decision; None stands for a filepath.Abs error.
  predicate Allowed(dirs: seq<Option<Path>>, abs: Option<Path>) {
    |dirs| == 0 || (abs.Some? && exists i :: 0 <= i < |dirs| && Lists(dirs[i], abs.value))
  }

  predicate Lists(dir: Option<Path>, abs: Path) {
    dir.Some? && Accepts(Render(abs), Render(dir.value))
  }

  datatype Verdict = Permitted | Unresolvable | Outside

  // The loop of ValidateCheckpointPath.
  method ValidateCheckpointPath(dirs: seq<Option<Path>>, abs: Option<Path>) returns (v: Verdict)
    ensures v.Permitted? <==> Allowed(dirs, abs)
    ensures v.Unresolvable? <==> |dirs| > 0 && abs.None?
  {
    if |dirs| == 0 {
      return Permitted;
    }
    if abs.None? {
      return Unresolvable;
    }
    for i := 0 to |dirs|
      invariant forall j :: 0 <= j < i ==> !Lists(dirs[j], abs.value)
    {
      if dirs[i].Some? && Accepts(Render(abs.value), Render(dirs[i].value)) {
        assert Lists(dirs[i], abs.value);
        return Permitted;
      }
    }
    return Outside;
  }

  // ---- the string test against components --------------------------------

  ghost predicate Slashed(s: string) {
    s == "" || s[0] == '/'
  }

  // A component followed by a slash pins the component it is matched against.
  lemma ComponentMatch(c: string, x: string, d: string, y: string)
    requires '/' !in c && '/' !in d
    requires x != "" && x[0] == '/' && Slashed(y)
    requires c + x <= d + y
    ensures c == d && x <= y
  {
    var z := d + y;
    assert z[|c|] == '/' by {
      assert (c + x)[|c|] == x[0];
    }
    assert |d| <= |c| by {
      assert forall i :: 0 <= i < |d| ==> z[i] == d[i] && d[i] in d;
    }
    assert |c| <= |d| by {
      assert z[|d|] == y[0];
      assert forall i :: 0 <= i < |c| ==> z[i] == (c + x)[i] == c[i] && c[i] in c;
    }
    assert c == (c + x)[..|c|] == z[..|c|] == d;
    assert forall i :: 0 <= i < |x| ==> x[i] == (c + x)[|c| + i] == z[|d| + i] == y[i];
  }

  lemma TailSlashed(p: Path)
    ensures Slashed(Tail(p))
    ensures Tail(p) == "" <==> p == []
  {
  }

  // A first component and the rest of a path, against another's.
  lemma HeadPrefix(c: string, x: string, d: string, y: string)
    requires '/' !in c && '/' !in d
    requires x != "" && x[0] == '/' && Slashed(y)
    ensures "/" + c + x <= "/" + d + y <==> c == d && x <= y
  {
    assert "/" + c + x == "/" + (c + x) && "/" + d + y == "/" + (d + y);
    if "/" + c + x <= "/" + d + y {
      assert c + x == ("/" + (c + x))[1..] <= ("/" + (d + y))[1..] == d + y;
      ComponentMatch(c, x, d, y);
    }
  }

  lemma HeadEqual(c: string, x: string, d: string, y: string)
    requires '/' !in c && '/' !in d && Slashed(x) && Slashed(y)
    requires "/" + c + x == "/" + d + y
    ensures c == d && x == y
  {
    var u, v := x + "/", y + "/";
    assert "/" + c + u == ("/" + c + x) + "/" == ("/" + d + y) + "/" == "/" + d + v;
    assert u[0] == '/' && Slashed(v);
    HeadPrefix(c, u, d, v);
    assert x == ("/" + c + x)[1 + |c|..] == ("/" + d + y)[1 + |d|..] == y;
  }

  lemma {:induction false} StrictPrefix(dir: Path, p: Path)
    requires Clean(dir) && Clean(p)
    ensures Tail(dir) + "/" <= Tail(p) <==> |dir| < |p| && dir <= p
  {
    TailSlashed(p);
    if dir != [] && p != [] {
      var x, y := Tail(dir[1..]) + "/", Tail(p[1..]);
      TailSlashed(dir[1..]);
      TailSlashed(p[1..]);
      assert CleanComponent(dir[0]) && CleanComponent(p[0]);
      StrictPrefix(dir[1..], p[1..]);
      assert Tail(dir) + "/" == "/" + dir[0] + x;
      HeadPrefix(dir[0], x, p[0], y);
      PrefixByHead(dir, p);
      hide Tail;
    }
  }

  lemma PrefixByHead(dir: Path, p: Path)
    requires dir != [] && p != []
    ensures dir <= p <==> dir[0] == p[0] && dir[1..] <= p[1..]
  {
    assert dir == [dir[0]] + dir[1..] && p == [p[0]] + p[1..];
  }

  // Distinct clean paths are rendered differently.
  lemma {:induction false} TailInjective(p: Path, q: Path)
    requires Clean(p) && Clean(q)
    requires Tail(p) == Tail(q)
    ensures p == q
  {
    TailSlashed(p);
    TailSlashed(q);
    if p != [] && q != [] {
      TailSlashed(p[1..]);
      TailSlashed(q[1..]);
      assert CleanComponent(p[0]) && CleanComponent(q[0]);
      HeadEqual(p[0], Tail(p[1..]), q[0], Tail(q[1..]));
      hide Tail;
      TailInjective(p[1..], q[1..]);
      assert p == [p[0]] + p[1..] && q == [q[0]] + q[1..];
    }
  }

  // The prefix test is component containment, except that the root directory
  // accepts nothing but itself.
  lemma AcceptsIsContainment(dir: Path, p: Path)
    requires Clean(dir) && Clean(p)
    ensures Accepts(Render(p), Render(dir)) <==> (if dir == [] then p == [] else dir <= p)
  {
    if dir == [] {
      if p != [] {
        assert CleanComponent(p[0]);
        assert p[0][0] in p[0];
        assert Render(p)[1] == p[0][0];
      }
    } else {
      StrictPrefix(dir, p);
      if p == [] {
        assert CleanComponent(dir[0]);
        assert |Render(dir)| > 1;
      } else if Render(p) == Render(dir) {
        TailInjective(p, dir);
      }
      assert dir <= p && |dir| >= |p| ==> dir == p;
    }
  }

  // Listing a directory admits exactly its subtree if and only if the directory
  // is not the root, apart from the root path itself.
  lemma ListingAdmitsSubtreeUnlessRoot(dir: Path, p: Path)
    requires Clean(dir) && Clean(p)
    ensures (Accepts(Render(p), Render(dir)) <==> dir <= p) <==> (dir != [] || p == [])
  {
    AcceptsIsContainment(dir, p);
  }

  ghost predicate CleanDirs(dirs: seq<Option<Path>>) {
    forall i :: 0 <= i < |dirs| && dirs[i].Some? ==> Clean(dirs[i].value)
  }

  ghost predicate Admits(dir: Option<Path>, p: Path) {
    dir.Some? && if dir.value == [] then p == [] else dir.value <= p
  }

  // The allowlist by components, for every list and path.
  lemma AllowedByComponents(dirs: seq<Option<Path>>, p: Path)
    requires CleanDirs(dirs) && Clean(p)
    ensures Allowed(dirs, Some(p)) <==>
            |dirs| == 0 || exists i :: 0 <= i < |dirs| && Admits(dirs[i], p)
  {
    forall i | 0 <= i < |dirs|
      ensures Lists(dirs[i], p) <==> Admits(dirs[i], p)
    {
      if dirs[i].Some? {
        AcceptsIsContainment(dirs[i].value, p);
      }
    }
  }

  ghost predicate UnderSome(dirs: seq<Option<Path>>, p: Path) {
    exists i :: 0 <= i < |dirs| && dirs[i].Some? && dirs[i].value <= p
  }

  ghost predicate UnderNonRoot(dirs: seq<Option<Path>>, p: Path) {
    exists i :: 0 <= i < |dirs| && dirs[i].Some? && dirs[i].value != [] && dirs[i].value <= p
  }

  // A non-empty allowlist decides containment correctly for a path if and only
  // if the root is not listed, or the path is the root itself, or another
  // listed directory contains it.
  lemma AllowlistIsContainmentUnlessRoot(dirs: seq<Option<Path>>, p: Path)
    requires |dirs| > 0 && CleanDirs(dirs) && Clean(p)
    ensures (Allowed(dirs, Some(p)) <==> UnderSome(dirs, p)) <==>
            (Some([]) !in dirs || p == [] || UnderNonRoot(dirs, p))
  {
    AllowedByComponents(dirs, p);
    if Some([]) in dirs {
      var k :| 0 <= k < |dirs| && dirs[k] == Some([]);
      assert dirs[k].value <= p;
      if p == [] {
        assert Admits(dirs[k], p);
      }
    }
    if UnderNonRoot(dirs, p) {
      var k :| 0 <= k < |dirs| && dirs[k].Some? && dirs[k].value != [] && dirs[k].value <= p;
      assert Admits(dirs[k], p);
    }
    if UnderSome(dirs, p) && Some([]) !in dirs {
      var k :| 0 <= k < |dirs| && dirs[k].Some? && dirs[k].value <= p;
      assert dirs[k] != Some([]);
      assert Admits(dirs[k], p);
    }
  }

  // With the root listed, a path right under it is turned away.
  lemma RootListedRefusesItsSubtree()
    ensures UnderSome([Some([])], ["ckpt"]) && !Allowed([Some([])], Some(["ckpt"]))
  {
    var dirs: seq<Option<Path>> := [Some([])];
    var p: Path := ["ckpt"];
    assert CleanComponent("ckpt") && Clean(p);
    AllowedByComponents(dirs, p);
    assert dirs[0].Some? && dirs[0].value <= p;
  }
}
