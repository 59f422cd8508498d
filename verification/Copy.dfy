/** The name search of `cp`: server/src/protocol/execution/cp.cpp. */
module Copy {
  import opened Paths
  import opened Decimal

  function CopyName(name: string, k: nat): string { name + " (copy " + ToDecimal(k) + ")" }

  /** The path `cp` tries after k attempts: the plain name, then the numbered copies. */
  function Target(dir: Path, name: string, k: nat): Path {
    dir + [if k == 0 then name else CopyName(name, k)]
  }

  lemma TargetInjective(dir: Path, name: string, j: nat, k: nat)
    requires Target(dir, name, j) == Target(dir, name, k)
    ensures j == k
  {
    var n := |dir|;
    assert Target(dir, name, j)[n] == Target(dir, name, k)[n];
    if j > 0 && k > 0 {
      var a, b := CopyName(name, j), CopyName(name, k);
      var m := |name + " (copy "|;
      assert a[m..|a| - 1] == ToDecimal(j) && b[m..|b| - 1] == ToDecimal(k);
      DecimalRoundTrip(j);
      DecimalRoundTrip(k);
    }
  }

  ghost predicate AllTaken(t: Tree, dir: Path, name: string, k: nat) {
    forall j: nat | j < k :: Target(dir, name, j) in t
  }

  /** Different attempts name different entries, so a finite tree runs out of them. */
  lemma {:induction false} TakenBound(t: Tree, dir: Path, name: string, k: nat)
    requires AllTaken(t, dir, name, k)
    ensures k <= |t|
    decreases k
  {
    if k > 0 {
      var last := Target(dir, name, k - 1);
      var t' := t - {last};
      forall j: nat | j < k - 1 ensures Target(dir, name, j) in t' {
        if Target(dir, name, j) == last {
          TargetInjective(dir, name, j, k - 1);
          assert false;
        }
      }
      TakenBound(t', dir, name, k - 1);
      assert t'.Keys == t.Keys - {last};
      assert |t'.Keys| == |t'| && |t.Keys| == |t|;
    }
  }

  /** The first attempt from k on that names nothing. */
  function Search(t: Tree, dir: Path, name: string, k: nat): (n: nat)
    requires AllTaken(t, dir, name, k)
    ensures k <= n <= |t| && AllTaken(t, dir, name, n) && Target(dir, name, n) !in t
    decreases |t| - k
  {
    TakenBound(t, dir, name, k);
    if Target(dir, name, k) !in t then k
    else
      TakenBound(t, dir, name, k + 1);
      Search(t, dir, name, k + 1)
  }

  function CopyTarget(t: Tree, dir: Path, name: string): (p: Path)
    ensures p !in t
  {
    Target(dir, name, Search(t, dir, name, 0))
  }

  /** The name that `cp` gives: the plain one, or else the one with the least number that is
      free. */
  ghost predicate CopyAt(t: Tree, dir: Path, name: string, k: nat, p: Path) {
    if k == 0 then p == dir + [name] && p !in t
    else
      && p == dir + [name + " (copy " + ToDecimal(k) + ")"] && p !in t && dir + [name] in t
      && forall j | 1 <= j < k :: dir + [name + " (copy " + ToDecimal(j) + ")"] in t
  }

  lemma CopyFound(t: Tree, dir: Path, name: string) returns (k: nat, p: Path)
    ensures p == CopyTarget(t, dir, name) && CopyAt(t, dir, name, k, p)
  {
    k, p := Search(t, dir, name, 0), CopyTarget(t, dir, name);
    assert AllTaken(t, dir, name, k);
    if k > 0 { assert Target(dir, name, 0) in t; }
    forall j | 1 <= j < k ensures dir + [name + " (copy " + ToDecimal(j) + ")"] in t {
      assert Target(dir, name, j) in t;
    }
  }

  /** Cp::execute: the loop over copy numbers ends on every tree; the copy gets the plain
      name or else the least free number, nothing is overwritten and nothing else changes.
      Only a regular file is copied. */
  method Execute(t: Tree, cwd: Path, name: string, dir: Path) returns (t': Tree)
    ensures !IsFile(t, cwd + [name]) ==> t' == t
    ensures IsFile(t, cwd + [name]) ==> t' == t[CopyTarget(t, dir, name) := t[cwd + [name]]]
    ensures exists k, p :: p == CopyTarget(t, dir, name) && CopyAt(t, dir, name, k, p)
  {
    var oldPath := cwd + [name];
    var newPath := dir + [name];
    var copyNumber := 1;
    while newPath in t
      invariant copyNumber >= 1 && newPath == Target(dir, name, copyNumber - 1)
      invariant AllTaken(t, dir, name, copyNumber - 1)
      decreases |t| - copyNumber
    {
      assert AllTaken(t, dir, name, copyNumber);
      TakenBound(t, dir, name, copyNumber);
      newPath := dir + [CopyName(name, copyNumber)];
      copyNumber := copyNumber + 1;
    }
    LeastIsFound(t, dir, name, copyNumber - 1);
    ghost var _, _ := CopyFound(t, dir, name);
    t' := if IsFile(t, oldPath) then t[newPath := t[oldPath]] else t;
  }

  lemma LeastIsFound(t: Tree, dir: Path, name: string, n: nat)
    requires AllTaken(t, dir, name, n) && Target(dir, name, n) !in t
    ensures CopyTarget(t, dir, name) == Target(dir, name, n)
  {
    var m := Search(t, dir, name, 0);
    assert AllTaken(t, dir, name, m) && Target(dir, name, m) !in t;
  }

  lemma CopyTargetOrdinary(t: Tree, dir: Path, name: string)
    requires Ordinary(dir) && Component(name)
    ensures Ordinary(CopyTarget(t, dir, name)) && Parent(CopyTarget(t, dir, name)) == dir
  {
    var k := Search(t, dir, name, 0);
    var copy := CopyName(name, k);
    assert '/' !in copy by { assert forall c <- ToDecimal(k) :: IsDigit(c); }
    assert |copy| > 2;
    var p := Target(dir, name, k);
    assert forall i | 0 <= i < |dir| :: p[i] in dir;
    assert Parent(p) == dir;
  }
}
