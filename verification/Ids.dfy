// The names that spawn gives to sentries (internal/pool/pool.go): the pool's
// name with "/" replaced by "-", a dash, and the pool's counter in decimal; and
// the work directories named after them.
module Ids {
  import Paths

  function Sanitise(name: string): (r: string)
    ensures |r| == |name| && '/' !in r
    ensures forall i :: 0 <= i < |name| ==> r[i] == if name[i] == '/' then '-' else name[i]
  {
    if name == "" then ""
    else [if name[0] == '/' then '-' else name[0]] + Sanitise(name[1..])
  }

  function Digit(d: nat): char
    requires d < 10
  {
    "0123456789"[d]
  }

  function Decimal(n: nat): (r: string)
    ensures r != "" && '-' !in r && '/' !in r
  {
    if n < 10 then [Digit(n)] else Decimal(n / 10) + [Digit(n % 10)]
  }

  function Id(name: string, n: nat): string {
    Sanitise(name) + "-" + Decimal(n)
  }

  lemma DigitInjective(d: nat, e: nat)
    requires d < 10 && e < 10 && Digit(d) == Digit(e)
    ensures d == e
  {
  }

  lemma {:induction false} DecimalInjective(n: nat, m: nat)
    requires Decimal(n) == Decimal(m)
    ensures n == m
  {
    var x, y := Decimal(n), Decimal(m);
    assert x[|x| - 1] == Digit(n % 10) && y[|y| - 1] == Digit(m % 10);
    DigitInjective(n % 10, m % 10);
    if n >= 10 && m >= 10 {
      assert x[..|x| - 1] == Decimal(n / 10) && y[..|y| - 1] == Decimal(m / 10);
      DecimalInjective(n / 10, m / 10);
    }
  }

  // What a numeral reads as, digit by digit.
  function Value(s: string): int {
    if s == "" then 0 else 10 * Value(s[..|s| - 1]) + (s[|s| - 1] as int - '0' as int)
  }

  predicate Numeral(s: string) {
    s != "" && (forall i :: 0 <= i < |s| ==> '0' <= s[i] <= '9') && (s[0] == '0' ==> |s| == 1)
  }

  lemma {:induction false} DecimalReads(n: nat)
    ensures Value(Decimal(n)) == n && Numeral(Decimal(n)) && (n > 0 ==> Decimal(n)[0] != '0')
  {
    var s := Decimal(n);
    assert forall d: nat :: d < 10 ==> Digit(d) as int == '0' as int + d;
    if n < 10 {
      assert s[..0] == "";
    } else {
      DecimalReads(n / 10);
      assert s[..|s| - 1] == Decimal(n / 10);
    }
  }

  // An id is the pool's name with its slashes replaced, a dash, and the counter as
  // a decimal numeral.
  lemma IdReads(name: string, n: nat)
    ensures var id := Id(name, n);
            && |id| > |name| + 1 && id[|name|] == '-'
            && (forall i :: 0 <= i < |name| ==> id[i] == if name[i] == '/' then '-' else name[i])
            && Numeral(id[|name| + 1..]) && Value(id[|name| + 1..]) == n
  {
    DecimalReads(n);
    assert Id(name, n)[|name| + 1..] == Decimal(n);
  }

  // The last dash splits an id uniquely.
  lemma LastDash(x: string, d: string, y: string, e: string)
    requires '-' !in d && '-' !in e
    requires x + "-" + d == y + "-" + e
    ensures x == y && d == e
  {
    LaterDash(x, d, y, e);
    LaterDash(y, e, x, d);
    var z := x + "-" + d;
    assert x == z[..|x|] && y == z[..|y|];
    assert d == z[|x| + 1..] && e == z[|y| + 1..];
  }

  lemma LaterDash(x: string, d: string, y: string, e: string)
    requires x + "-" + d == y + "-" + e
    ensures |x| < |y| ==> '-' in d
  {
    var z := x + "-" + d;
    if |x| < |y| {
      assert (y + "-" + e)[|y|] == '-' && z[|y|] == d[|y| - |x| - 1];
    }
  }

  // Two ids are equal exactly if the counters are and the pools' names differ at
  // most in "/" against "-".
  lemma IdsCollideExactly(a: string, n: nat, b: string, m: nat)
    ensures Id(a, n) == Id(b, m) <==> Sanitise(a) == Sanitise(b) && n == m
  {
    if Id(a, n) == Id(b, m) {
      LastDash(Sanitise(a), Decimal(n), Sanitise(b), Decimal(m));
      DecimalInjective(n, m);
    }
  }

  // Two pools, two templates, one id.
  lemma DashesCollide()
    ensures "a-b/c" != "a/b-c" && Id("a-b/c", 1) == Id("a/b-c", 1)
  {
    var x, y := Sanitise("a-b/c"), Sanitise("a/b-c");
    assert x == "a-b-c" && y == "a-b-c";
  }

  // ---- work directories ---------------------------------------------------

  // filepath.Join of a clean absolute directory and an id, by components.
  function WorkDir(workdir: Paths.Path, id: string): Paths.Path {
    workdir + [id]
  }

  lemma IdIsComponent(name: string, n: nat)
    ensures Paths.CleanComponent(Id(name, n))
  {
    var id := Id(name, n);
    assert |id| >= 2 && id[|Sanitise(name)|] == '-';
    assert id[0] == '-' || id[0] in Sanitise(name);
    assert id != ".";
    assert id != "..";
  }

  // The directories on disk are as distinct as the ids.
  lemma WorkDirsCollideExactly(workdir: Paths.Path, a: string, n: nat, b: string, m: nat)
    requires Paths.Clean(workdir)
    ensures Paths.Render(WorkDir(workdir, Id(a, n))) == Paths.Render(WorkDir(workdir, Id(b, m)))
            <==> Sanitise(a) == Sanitise(b) && n == m
  {
    var p, q := WorkDir(workdir, Id(a, n)), WorkDir(workdir, Id(b, m));
    IdIsComponent(a, n);
    IdIsComponent(b, m);
    assert Paths.Clean(p) && Paths.Clean(q);
    IdsCollideExactly(a, n, b, m);
    if Paths.Render(p) == Paths.Render(q) {
      Paths.TailInjective(p, q);
      assert p[|workdir|] == Id(a, n) && q[|workdir|] == Id(b, m);
    }
  }

  // Within one pool, the i-th and the j-th sentry ever built have different ids
  // and work in different directories.
  lemma PoolIdsDistinct(workdir: Paths.Path, name: string, i: nat, j: nat)
    requires Paths.Clean(workdir) && i != j
    ensures Id(name, i + 1) != Id(name, j + 1)
    ensures Paths.Render(WorkDir(workdir, Id(name, i + 1))) != Paths.Render(WorkDir(workdir, Id(name, j + 1)))
  {
    IdsCollideExactly(name, i + 1, name, j + 1);
    WorkDirsCollideExactly(workdir, name, i + 1, name, j + 1);
  }
}
