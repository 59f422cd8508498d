/** Paths, the lock test on their text (server/src/protocol/path_lock.cpp), and the file
    tree the commands work on. */
module Paths {
  import opened Decimal

  /** An absolute path as its components; the empty path is "/". */
  type Path = seq<string>

  predicate Component(c: string) { c != "" && '/' !in c && c != "." && c != ".." }

  predicate Ordinary(p: Path) { forall c <- p :: Component(c) }

  function Parent(p: Path): Path
    requires p != []
  {
    p[..|p| - 1]
  }

  function Slashed(p: Path): string {
    if p == [] then "" else "/" + p[0] + Slashed(p[1..])
  }

  /** path.native() */
  function Native(p: Path): string { if p == [] then "/" else Slashed(p) }

  /** PathLock::has_locked_path: a lock on `locked` stands in the way of `p`. */
  predicate Covers(locked: Path, p: Path) { Native(p) <= Native(locked) }

  /** What that text test means for components: `p` and `q` agree on all but p's last
      component, and that one is a textual prefix of q's component there. */
  ghost predicate AgreesUpTo(p: Path, q: Path) {
    && 0 < |p| <= |q|
    && p[..|p| - 1] == q[..|p| - 1]
    && p[|p| - 1] <= q[|p| - 1]
  }

  lemma SlashedHead(p: Path)
    requires p != []
    ensures Slashed(p)[0] == '/' && Slashed(p)[1..] == p[0] + Slashed(p[1..])
  {
  }

  /** Two components followed by more path, one text a prefix of the other. */
  lemma HeadsMatch(a: string, x: string, b: string, y: string)
    requires '/' !in a && '/' !in b
    requires x == "" || x[0] == '/'
    requires y == "" || y[0] == '/'
    ensures a + x <= b + y <==> if x == "" then a <= b else a == b && x <= y
  {
    var u, v := a + x, b + y;
    assert forall k | 0 <= k < |a| :: u[k] == a[k] && a[k] != '/';
    assert forall k | 0 <= k < |b| :: v[k] == b[k] && b[k] != '/';
    assert forall k | 0 <= k < |x| :: u[|a| + k] == x[k];
    assert forall k | 0 <= k < |y| :: v[|b| + k] == y[k];
    assert y != "" ==> v[|b| + 0] == '/';
    assert x != "" ==> u[|a| + 0] == '/';
    if u <= v {
      assert |a| <= |b|;
      assert x != "" ==> |a| == |b|;
    }
  }

  lemma {:induction false} SlashedPrefix(p: Path, q: Path)
    requires Ordinary(p) && Ordinary(q) && p != []
    ensures Slashed(p) <= Slashed(q) <==> AgreesUpTo(p, q)
    decreases |p|
  {
    if q != [] {
      var p', q' := p[1..], q[1..];
      assert p[0] in p && q[0] in q;
      SlashedHead(p);
      SlashedHead(q);
      HeadsMatch(p[0], Slashed(p'), q[0], Slashed(q'));
      assert Slashed(p) <= Slashed(q) <==> Slashed(p)[1..] <= Slashed(q)[1..];
      if p' == [] {
        assert p[..0] == q[..0];
      } else {
        SlashedPrefix(p', q');
        AgreesShift(p, q);
      }
    }
  }

  lemma AgreesShift(p: Path, q: Path)
    requires |p| > 1 && q != []
    ensures AgreesUpTo(p, q) <==> p[0] == q[0] && AgreesUpTo(p[1..], q[1..])
  {
    var n := |p| - 1;
    if n < |q| {
      assert p[..n] == [p[0]] + p[1..][..n - 1];
      assert q[..n] == [q[0]] + q[1..][..n - 1];
    }
  }

  /** The lock test, exactly. */
  lemma LockTestExact(locked: Path, p: Path)
    requires Ordinary(locked) && Ordinary(p) && p != []
    ensures Covers(locked, p) <==> AgreesUpTo(p, locked)
  {
    SlashedPrefix(p, locked);
    if locked == [] {
      SlashedHead(p);
      assert p[0] in p && |Slashed(p)| > 1;
    }
  }

  /** So it never misses an ancestor of a locked path, nor the path itself. */
  lemma AncestorsAreCovered(locked: Path, p: Path)
    requires Ordinary(locked) && Ordinary(p) && p != [] && p <= locked
    ensures Covers(locked, p)
  {
    LockTestExact(locked, p);
  }

  // ---------- the file tree ----------

  /** What an interrupted upload leaves behind: where it was going and how far it got. */
  datatype Record = Record(path: Path, size: nat, offset: nat)

  /** `Notes` is the file that holds a record. */
  datatype Node = Dir | File(content: string) | Notes(record: Record)

  type Tree = map<Path, Node>

  predicate IsDir(t: Tree, p: Path) { p in t && t[p].Dir? }

  predicate IsFile(t: Tree, p: Path) { p in t && !t[p].Dir? }

  function Escaped(s: string): string {
    if s == "" then "" else (if s[0] == '"' || s[0] == '\\' then "\\" else "") + [s[0]] + Escaped(s[1..])
  }

  /** create_backup */
  function RecordText(r: Record): string {
    "path = \"" + Escaped(Native(r.path)) + "\"\nsize = " + ToDecimal(r.size) + "\noffset = " + ToDecimal(r.offset) + "\n"
  }

  /** What reading a file gives. */
  function TextOf(node: Node): string {
    match node
    case Dir => ""
    case File(content) => content
    case Notes(r) => RecordText(r)
  }

  /** Everything lies under the root, in a directory. */
  ghost predicate WellFormed(t: Tree, root: Path) {
    && IsDir(t, root)
    && forall p <- t :: root <= p && Ordinary(p) && (p != root ==> IsDir(t, Parent(p)))
  }

  /** remove_all */
  function Removed(t: Tree, a: Path): Tree { map p | p in t && !(a <= p) :: t[p] }

  /** The path p, which lies under `from`, as seen from `to`. */
  function Rebased(p: Path, from: Path, to: Path): Path
    requires from <= p
  {
    to + p[|from|..]
  }

  /** rename, with everything below */
  function Moved(t: Tree, from: Path, to: Path): Tree {
    var targets := set q | q in t && from <= q :: Rebased(q, from, to);
    Removed(t, from) + map p | p in targets && to <= p && Rebased(p, to, from) in t :: t[Rebased(p, to, from)]
  }

  /** Moving loses nothing and invents nothing: what was below `from` is now below `to`. */
  lemma MovedExact(t: Tree, from: Path, to: Path, p: Path)
    ensures p in Moved(t, from, to) <==>
      (p in t && !(from <= p)) || (to <= p && Rebased(p, to, from) in t)
    ensures to <= p && Rebased(p, to, from) in t ==> Moved(t, from, to)[p] == t[Rebased(p, to, from)]
    ensures p in t && !(from <= p) && !(to <= p) ==> Moved(t, from, to)[p] == t[p]
  {
    if to <= p {
      var q := Rebased(p, to, from);
      assert Rebased(q, from, to) == p by {
        assert q[|from|..] == p[|to|..];
      }
    }
  }

  lemma RemovedWellFormed(t: Tree, root: Path, a: Path)
    requires WellFormed(t, root) && root <= a && a != root
    ensures WellFormed(Removed(t, a), root)
  {
    forall p | p in Removed(t, a) && p != root ensures IsDir(Removed(t, a), Parent(p)) {
      assert a <= Parent(p) ==> a <= p;
    }
  }

  lemma AddedWellFormed(t: Tree, root: Path, p: Path, node: Node)
    requires WellFormed(t, root) && p != [] && Ordinary(p) && IsDir(t, Parent(p))
    requires p in t ==> IsFile(t, p) && !node.Dir?
    ensures WellFormed(t[p := node], root)
  {
    var t' := t[p := node];
    assert root <= Parent(p) <= p;
    forall q | q in t' && q != root ensures root <= q && Ordinary(q) && IsDir(t', Parent(q)) {
      if q == p {
        assert Parent(p) != p;
      } else {
        assert IsDir(t, Parent(q));
      }
    }
  }

  /** Nothing lies under a path that does not exist. */
  lemma {:induction false} NothingUnder(t: Tree, root: Path, a: Path, p: Path)
    requires WellFormed(t, root) && root <= a && a !in t && a <= p
    ensures p !in t
    decreases |p|
  {
    if a != p {
      assert a <= Parent(p) && p != root;
      NothingUnder(t, root, a, Parent(p));
    }
  }

  ghost predicate Movable(t: Tree, root: Path, from: Path, to: Path) {
    && WellFormed(t, root) && from in t && from != root
    && to != [] && to !in t && Ordinary(to) && IsDir(t, Parent(to)) && !(from <= to)
  }

  /** What is neither below `from` nor below `to` stays. */
  lemma MovedKeeps(t: Tree, root: Path, from: Path, to: Path, p: Path)
    requires Movable(t, root, from, to) && p in t && !(from <= p)
    ensures p in Moved(t, from, to) && Moved(t, from, to)[p] == t[p]
  {
    assert root <= Parent(to) <= to;
    if to <= p { NothingUnder(t, root, to, p); }
    MovedExact(t, from, to, p);
  }

  lemma MovedParent(t: Tree, root: Path, from: Path, to: Path, p: Path)
    requires Movable(t, root, from, to) && to <= p && Rebased(p, to, from) in t
    ensures p != root && Ordinary(p) && IsDir(Moved(t, from, to), Parent(p))
  {
    var q := Rebased(p, to, from);
    assert root <= Parent(to) && from <= q && root <= from;
    assert p == to + q[|from|..];
    if p == to {
      assert from <= Parent(to) ==> from <= to;
      MovedKeeps(t, root, from, to, Parent(to));
    } else {
      assert to <= Parent(p) && Rebased(Parent(p), to, from) == Parent(q);
      assert q != root;
      MovedExact(t, from, to, Parent(p));
    }
  }

  lemma MovedWellFormed(t: Tree, root: Path, from: Path, to: Path)
    requires Movable(t, root, from, to)
    ensures WellFormed(Moved(t, from, to), root)
  {
    var t' := Moved(t, from, to);
    assert root <= Parent(to) <= to && root <= from;
    MovedKeeps(t, root, from, to, root);
    forall p | p in t' ensures root <= p && Ordinary(p) && (p != root ==> IsDir(t', Parent(p))) {
      MovedExact(t, from, to, p);
      if to <= p && Rebased(p, to, from) in t {
        MovedParent(t, root, from, to, p);
      } else if p != root {
        assert from <= Parent(p) ==> from <= p;
        MovedKeeps(t, root, from, to, Parent(p));
      }
    }
  }
}
