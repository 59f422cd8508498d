/** The file tree together with the files that uploads have open, and the temporary files
    of uploads in the configuration directory `.tds` under the root.

    An open file is named by where it is now: renaming it or a directory above it moves the
    handle along, removing it leaves the handle without a place. */
module Disks {
  import opened Paths

  type User = string
  type Handle = nat

  datatype Disk = Disk(tree: Tree, open: map<Handle, Path>)

  predicate UserChar(c: char) { 'a' <= c <= 'z' || 'A' <= c <= 'Z' || '0' <= c <= '9' || c == '_' }

  /** is_username_ok, but for the length */
  predicate UserName(u: User) { forall c <- u :: UserChar(c) }

  function Conf(root: Path): Path { root + [".tds"] }

  function PartialPath(root: Path, u: User): Path { Conf(root) + [u + ".partial"] }

  function BackupPath(root: Path, u: User): Path { Conf(root) + [u + ".upload"] }

  /** is_path_forbidden */
  predicate Forbidden(root: Path, p: Path) { Native(Conf(root)) <= Native(p) }

  ghost predicate Inside(root: Path, p: Path) { Conf(root) <= p && p != Conf(root) }

  lemma TemporaryInside(root: Path, u: User)
    ensures Inside(root, PartialPath(root, u)) && Inside(root, BackupPath(root, u))
    ensures Parent(PartialPath(root, u)) == Conf(root) && Parent(BackupPath(root, u)) == Conf(root)
  {
  }

  /** No two temporary files have the same name. */
  lemma TemporaryApart(root: Path, u: User, v: User)
    ensures PartialPath(root, u) != BackupPath(root, v)
    ensures PartialPath(root, u) == PartialPath(root, v) ==> u == v
    ensures BackupPath(root, u) == BackupPath(root, v) ==> u == v
  {
    LastName(Conf(root), u + ".partial", v + ".upload");
    LastName(Conf(root), u + ".partial", v + ".partial");
    LastName(Conf(root), u + ".upload", v + ".upload");
    SameSuffix(u, v, ".partial");
    SameSuffix(u, v, ".upload");
    assert (u + ".partial")[|u + ".partial"| - 1] == 'l' && (v + ".upload")[|v + ".upload"| - 1] == 'd';
  }

  lemma LastName(dir: Path, a: string, b: string)
    ensures dir + [a] == dir + [b] ==> a == b
  {
    assert (dir + [a])[|dir|] == a && (dir + [b])[|dir|] == b;
  }

  lemma SameSuffix(u: string, v: string, suffix: string)
    ensures u + suffix == v + suffix ==> u == v
  {
    if u + suffix == v + suffix {
      assert |u| == |v| && (u + suffix)[..|u|] == u && (v + suffix)[..|v|] == v;
    }
  }

  lemma TemporaryOrdinary(root: Path, u: User)
    requires Ordinary(Conf(root)) && UserName(u)
    ensures Ordinary(PartialPath(root, u)) && Ordinary(BackupPath(root, u))
  {
    var a, b := u + ".partial", u + ".upload";
    assert Component(a) && Component(b) by {
      assert !UserChar('/');
      assert |a| > 2 && |b| > 2;
    }
    assert forall i | 0 <= i < |Conf(root)| :: PartialPath(root, u)[i] in Conf(root);
    assert forall i | 0 <= i < |Conf(root)| :: BackupPath(root, u)[i] in Conf(root);
  }

  // ---------- operations ----------

  function Unlinked(d: Disk, p: Path): Disk {
    Disk(d.tree - {p}, map h | h in d.open && d.open[h] != p :: d.open[h])
  }

  /** remove_all */
  function Erased(d: Disk, a: Path): Disk {
    Disk(Removed(d.tree, a), map h | h in d.open && !(a <= d.open[h]) :: d.open[h])
  }

  /** rename to a path where there is nothing */
  function Relocated(d: Disk, from: Path, to: Path): Disk {
    Disk(Moved(d.tree, from, to),
         map h | h in d.open :: if from <= d.open[h] then Rebased(d.open[h], from, to) else d.open[h])
  }

  /** rename of a file onto a path where there may be a file */
  function Replaced(d: Disk, src: Path, dest: Path): Disk
    requires src in d.tree
  {
    Disk((d.tree - {src})[dest := d.tree[src]],
         map h | h in d.open && (d.open[h] == src || d.open[h] != dest) ::
           if d.open[h] == src then dest else d.open[h])
  }

  /** Writing through a handle. */
  function Written(d: Disk, h: Handle, bytes: string): Disk {
    if bytes == "" || h !in d.open || d.open[h] !in d.tree then d
    else d.(tree := d.tree[d.open[h] := File(TextOf(d.tree[d.open[h]]) + bytes)])
  }

  // ---------- well-formedness ----------

  /** A record is of an upload to a path outside the configuration directory. */
  ghost predicate RecordOk(root: Path, r: Record) {
    r.path != [] && Ordinary(r.path) && r.offset <= r.size && !Inside(root, r.path)
  }

  ghost predicate NodeOk(root: Path, node: Node) { node.Notes? ==> RecordOk(root, node.record) }

  ghost predicate DiskOk(root: Path, d: Disk) {
    && WellFormed(d.tree, root)
    && (forall p <- d.tree :: NodeOk(root, d.tree[p]))
    && (forall h <- d.open :: IsFile(d.tree, d.open[h]))
  }

  /** Outside the configuration directory, nothing is gone and files stay files. */
  ghost predicate KeepsKinds(root: Path, t: Tree, t': Tree) {
    forall p <- t :: !Inside(root, p) ==> p in t' && (t'[p].Dir? <==> t[p].Dir?)
  }

  lemma KindsChain(root: Path, a: Tree, b: Tree, c: Tree)
    requires KeepsKinds(root, a, b) && KeepsKinds(root, b, c)
    ensures KeepsKinds(root, a, c)
  {
  }

  lemma PutOk(root: Path, d: Disk, p: Path, node: Node)
    requires DiskOk(root, d) && p != [] && Ordinary(p) && IsDir(d.tree, Parent(p)) && NodeOk(root, node)
    requires p in d.tree ==> IsFile(d.tree, p) && !node.Dir?
    ensures DiskOk(root, d.(tree := d.tree[p := node])) && KeepsKinds(root, d.tree, d.tree[p := node])
  {
    AddedWellFormed(d.tree, root, p, node);
    hide WellFormed;
  }

  lemma UnlinkedOk(root: Path, d: Disk, p: Path)
    requires DiskOk(root, d) && IsFile(d.tree, p) && Inside(root, p)
    ensures DiskOk(root, Unlinked(d, p)) && KeepsKinds(root, d.tree, Unlinked(d, p).tree)
  {
    UnlinkedWellFormed(root, d.tree, p);
    hide WellFormed;
  }

  lemma UnlinkedWellFormed(root: Path, t: Tree, p: Path)
    requires WellFormed(t, root) && IsFile(t, p)
    ensures WellFormed(t - {p}, root)
  {
    forall q | q in t - {p} && q != root ensures IsDir(t - {p}, Parent(q)) {
      assert IsDir(t, Parent(q));
    }
  }

  lemma ErasedOk(root: Path, d: Disk, a: Path)
    requires DiskOk(root, d) && a in d.tree && a != root
    ensures DiskOk(root, Erased(d, a))
  {
    RemovedWellFormed(d.tree, root, a);
    hide WellFormed;
  }

  lemma RelocatedOk(root: Path, d: Disk, from: Path, to: Path)
    requires DiskOk(root, d) && Movable(d.tree, root, from, to)
    ensures DiskOk(root, Relocated(d, from, to))
  {
    hide Movable, Moved, WellFormed;
    MovedWellFormed(d.tree, root, from, to);
    var d' := Relocated(d, from, to);
    forall p | p in d'.tree ensures NodeOk(root, d'.tree[p]) {
      MovedNode(d.tree, root, from, to, p);
    }
    forall h | h in d'.open ensures IsFile(d'.tree, d'.open[h]) {
      MovedFile(d.tree, root, from, to, d.open[h]);
    }
  }

  lemma MovedNode(t: Tree, root: Path, from: Path, to: Path, p: Path)
    requires Movable(t, root, from, to) && p in Moved(t, from, to)
    ensures exists q <- t :: Moved(t, from, to)[p] == t[q]
  {
    MovedExact(t, from, to, p);
    if p in t && !(from <= p) {
      MovedKeeps(t, root, from, to, p);
      assert Moved(t, from, to)[p] == t[p];
    } else {
      assert Moved(t, from, to)[p] == t[Rebased(p, to, from)];
    }
  }

  lemma MovedFile(t: Tree, root: Path, from: Path, to: Path, q: Path)
    requires Movable(t, root, from, to) && q in t
    ensures var p := if from <= q then Rebased(q, from, to) else q;
      p in Moved(t, from, to) && Moved(t, from, to)[p] == t[q]
  {
    if from <= q {
      var p := Rebased(q, from, to);
      assert to <= p && p[|to|..] == q[|from|..];
      assert Rebased(p, to, from) == q;
      MovedExact(t, from, to, p);
    } else {
      MovedKeeps(t, root, from, to, q);
    }
  }

  lemma WrittenOk(root: Path, d: Disk, h: Handle, bytes: string)
    requires DiskOk(root, d)
    ensures DiskOk(root, Written(d, h, bytes)) && KeepsKinds(root, d.tree, Written(d, h, bytes).tree)
  {
    if bytes != "" && h in d.open {
      var q := d.open[h];
      assert IsFile(d.tree, q) && q != root;
      ParentIsDir(d.tree, root, q);
      PutOk(root, d, q, File(TextOf(d.tree[q]) + bytes));
    }
  }

  lemma ParentIsDir(t: Tree, root: Path, p: Path)
    requires WellFormed(t, root) && p in t && p != root
    ensures p != [] && Ordinary(p) && IsDir(t, Parent(p))
  {
    assert root <= p;
  }

  lemma ReplacedOk(root: Path, d: Disk, src: Path, dest: Path)
    requires DiskOk(root, d) && IsFile(d.tree, src) && Inside(root, src)
    requires dest != [] && Ordinary(dest) && IsDir(d.tree, Parent(dest)) && !Inside(root, dest)
    requires dest in d.tree ==> IsFile(d.tree, dest)
    ensures DiskOk(root, Replaced(d, src, dest)) && KeepsKinds(root, d.tree, Replaced(d, src, dest).tree)
  {
    hide WellFormed, KeepsKinds, NodeOk;
    var d1, d' := Unlinked(d, src), Replaced(d, src, dest);
    UnlinkedOk(root, d, src);
    PutOk(root, d1, dest, d.tree[src]);
    assert d'.tree == d1.tree[dest := d.tree[src]];
    KindsChain(root, d.tree, d1.tree, d'.tree);
    forall h | h in d'.open ensures IsFile(d'.tree, d'.open[h]) {
      assert IsFile(d.tree, d.open[h]);
    }
  }
}
