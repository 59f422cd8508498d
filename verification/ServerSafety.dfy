/** What every step of every client keeps, over runs of any length. */
module ServerSafety {
  import opened Options
  import opened Paths
  import opened Disks
  import opened Uploads
  import opened ProtocolMode
  import opened ServerState
  import Copy

  // ---------- locks and the file tree ----------

  /** What a live lock stands for: a current directory that is a directory, a file to be
      sent, an upload into a place that exists. None of them is in the configuration
      directory. */
  ghost predicate Placed(root: Path, t: Tree, lock: Lock) {
    && Ordinary(lock.path) && !Inside(root, lock.path)
    && match lock.role
       case WorkDir => IsDir(t, lock.path) && lock.path != Conf(root) && lock.payload.Plain?
       case Storing =>
         lock.path != [] && Parent(lock.path) in t && lock.payload.Store? && lock.payload.offset <= lock.payload.size
       case _ => IsFile(t, lock.path) && lock.payload.Fetch? && lock.payload.offset <= lock.payload.size
  }

  /** Every live lock is listed and belongs to a connected client. */
  ghost predicate LockOk(s: State, id: TokenId)
    requires id in s.locks
  {
    var lock := s.locks[id];
    && id < s.next && id in s.lockList
    && lock.owner in s.clients && lock.role in s.clients[lock.owner].held
    && s.clients[lock.owner].held[lock.role] == id
  }

  ghost predicate HeldOk(s: State, c: ClientId, role: Role)
    requires c in s.clients && role in s.clients[c].held
  {
    var id := s.clients[c].held[role];
    id in s.locks && s.locks[id].owner == c && s.locks[id].role == role
  }

  ghost predicate LockInv(s: State) {
    && (forall id <- s.locks :: LockOk(s, id))
    && (forall c, role | c in s.clients && role in s.clients[c].held :: HeldOk(s, c, role))
    && (forall id <- s.lockList :: id < s.next)
  }

  ghost predicate TreeInv(s: State) {
    && DiskOk(s.root, s.disk)
    && (forall id <- s.locks :: Placed(s.root, s.disk.tree, s.locks[id]))
  }

  lemma HeldOf(s: State, c: ClientId, role: Role)
    requires LockInv(s) && c in s.clients && role in s.clients[c].held
    ensures HeldOk(s, c, role)
  {
  }

  lemma LockOf(s: State, id: TokenId)
    requires LockInv(s) && id in s.locks
    ensures LockOk(s, id)
  {
  }

  lemma ReleaseLocks(s: State, c: ClientId, role: Role, id: TokenId)
    requires LockInv(s) && c in s.clients && id in Release(s, c, role).locks
    ensures LockOk(Release(s, c, role), id)
  {
    hide LockInv;
    LockOf(s, id);
    if role in s.clients[c].held { HeldOf(s, c, role); }
  }

  lemma ReleaseHeld(s: State, c: ClientId, role: Role, d: ClientId, r: Role)
    requires LockInv(s) && c in s.clients && d in s.clients && r in Release(s, c, role).clients[d].held
    ensures HeldOk(Release(s, c, role), d, r)
  {
    hide LockInv;
    HeldOf(s, d, r);
    if role in s.clients[c].held { HeldOf(s, c, role); }
  }

  lemma ReleaseKeeps(s: State, c: ClientId, role: Role)
    requires LockInv(s) && c in s.clients
    ensures LockInv(Release(s, c, role))
  {
    var s' := Release(s, c, role);
    assert s'.lockList == s.lockList && s'.next == s.next && s'.clients.Keys == s.clients.Keys;
    hide Release, LockOk, HeldOk;
    forall id | id in s'.locks ensures LockOk(s', id) {
      ReleaseLocks(s, c, role, id);
    }
    forall d, r | d in s'.clients && r in s'.clients[d].held ensures HeldOk(s', d, r) {
      ReleaseHeld(s, c, role, d, r);
    }
  }

  lemma ListedKeeps(s: State)
    requires LockInv(s)
    ensures LockInv(Listed(s))
  {
    var s' := Listed(s);
    forall id | id in s'.locks ensures LockOk(s', id) {
      assert LockOk(s, id);
    }
    forall d, r | d in s'.clients && r in s'.clients[d].held ensures HeldOk(s', d, r) {
      assert HeldOk(s, d, r);
    }
  }

  lemma TakenKeeps(s: State, c: ClientId, id: TokenId, lock: Lock)
    requires LockInv(s) && c in s.clients && lock.owner == c && lock.role !in s.clients[c].held
    requires id !in s.locks && id < s.next && id in s.lockList
    ensures LockInv(Taken(s, c, id, lock))
  {
    var s' := Taken(s, c, id, lock);
    forall i | i in s'.locks ensures LockOk(s', i) {
      if i != id { assert LockOk(s, i); }
    }
    forall d, r | d in s'.clients && r in s'.clients[d].held ensures HeldOk(s', d, r) {
      if d != c || r != lock.role { assert HeldOk(s, d, r); }
    }
  }

  lemma GrantKeeps(s: State, c: ClientId, role: Role, path: Path, payload: Payload)
    requires LockInv(s) && c in s.clients
    ensures LockInv(Grant(s, c, role, path, payload))
  {
    ListedKeeps(s);
    ReleaseKeeps(Listed(s), c, role);
    assert s.next in s.locks ==> LockOk(s, s.next);
    TakenKeeps(Release(Listed(s), c, role), c, s.next, Lock(path, c, role, payload));
  }

  /** Changing a client without touching what it holds, or anything but the locks. */
  lemma SameLocks(s: State, s': State)
    requires LockInv(s)
    requires s'.locks == s.locks && s'.lockList == s.lockList && s'.next >= s.next
    requires s'.clients.Keys >= s.clients.Keys
    requires forall c <- s'.clients :: s'.clients[c].held == if c in s.clients then s.clients[c].held else map[]
    ensures LockInv(s')
  {
    forall id | id in s'.locks ensures LockOk(s', id) {
      assert LockOk(s, id);
    }
    forall c, role | c in s'.clients && role in s'.clients[c].held ensures HeldOk(s', c, role) {
      assert HeldOk(s, c, role);
    }
  }

  lemma SameTree(s: State, s': State)
    requires TreeInv(s) && s'.disk == s.disk && s'.root == s.root && s'.locks == s.locks
    ensures TreeInv(s')
  {
  }

  /** No live lock lies at or below a path that is not locked. */
  lemma UnlockedIsFree(s: State, p: Path, id: TokenId)
    requires LockInv(s) && TreeInv(s) && id in s.locks
    requires p in s.disk.tree && p != [] && !IsLocked(s, p)
    ensures !(p <= s.locks[id].path)
  {
    assert LockOk(s, id) && Placed(s.root, s.disk.tree, s.locks[id]);
    if p <= s.locks[id].path { AncestorsAreCovered(s.locks[id].path, p); }
  }

  /** A lock stays in place when nothing outside the configuration directory is gone. */
  lemma KindsPlaced(root: Path, t: Tree, t': Tree, lock: Lock)
    requires Placed(root, t, lock) && KeepsKinds(root, t, t')
    ensures Placed(root, t', lock)
  {
    if lock.role == Storing { assert Inside(root, Parent(lock.path)) ==> Inside(root, lock.path); }
  }

  lemma KindsKeep(s: State, d: Disk)
    requires TreeInv(s) && DiskOk(s.root, d) && KeepsKinds(s.root, s.disk.tree, d.tree)
    ensures TreeInv(SetDisk(s, d))
  {
    hide DiskOk, KeepsKinds, Placed;
    forall id | id in s.locks ensures Placed(s.root, d.tree, s.locks[id]) {
      assert Placed(s.root, s.disk.tree, s.locks[id]);
      KindsPlaced(s.root, s.disk.tree, d.tree, s.locks[id]);
    }
  }

  /** Adding an entry to a directory. */
  lemma AddedKeeps(s: State, p: Path, node: Node)
    requires TreeInv(s) && p != [] && Ordinary(p) && IsDir(s.disk.tree, Parent(p))
    requires p !in s.disk.tree && NodeOk(s.root, node)
    ensures TreeInv(SetDisk(s, Added(s.disk, p, node)))
  {
    PutOk(s.root, s.disk, p, node);
    hide TreeInv, DiskOk;
    KindsKeep(s, Added(s.disk, p, node));
  }

  /** Removing or moving what is not locked disturbs no live lock. */
  lemma RemovedPlaced(root: Path, t: Tree, p: Path, lock: Lock)
    requires Placed(root, t, lock) && !(p <= lock.path)
    ensures Placed(root, Removed(t, p), lock)
  {
    assert lock.path != [] && p <= Parent(lock.path) ==> p <= lock.path;
  }

  lemma RemovedKeeps(s: State, p: Path)
    requires LockInv(s) && TreeInv(s) && p in s.disk.tree && p != s.root && p != [] && !IsLocked(s, p)
    ensures TreeInv(SetDisk(s, Erased(s.disk, p)))
  {
    hide LockInv, IsLocked, Placed, DiskOk;
    ErasedOk(s.root, s.disk, p);
    forall id | id in s.locks ensures Placed(s.root, Removed(s.disk.tree, p), s.locks[id]) {
      assert Placed(s.root, s.disk.tree, s.locks[id]);
      UnlockedIsFree(s, p, id);
      RemovedPlaced(s.root, s.disk.tree, p, s.locks[id]);
    }
  }

  lemma MovedKeepsLocks(s: State, from: Path, to: Path)
    requires LockInv(s) && TreeInv(s) && Movable(s.disk.tree, s.root, from, to) && !IsLocked(s, from)
    ensures TreeInv(SetDisk(s, Relocated(s.disk, from, to)))
  {
    hide Movable, Moved, IsLocked, LockInv, Placed, DiskOk;
    RelocatedOk(s.root, s.disk, from, to);
    forall id | id in s.locks ensures Placed(s.root, Moved(s.disk.tree, from, to), s.locks[id]) {
      assert Placed(s.root, s.disk.tree, s.locks[id]);
      MovableFacts(s.disk.tree, s.root, from, to);
      UnlockedIsFree(s, from, id);
      MovedPlaced(s.disk.tree, s.root, from, to, s.locks[id]);
    }
  }

  lemma MovableFacts(t: Tree, root: Path, from: Path, to: Path)
    requires Movable(t, root, from, to)
    ensures from in t && from != []
  {
    assert root <= from;
  }

  lemma MovedPlaced(t: Tree, root: Path, from: Path, to: Path, lock: Lock)
    requires Movable(t, root, from, to) && Placed(root, t, lock) && !(from <= lock.path)
    ensures Placed(root, Moved(t, from, to), lock)
  {
    hide Movable, Moved;
    if lock.role == Storing {
      assert from <= Parent(lock.path) ==> from <= lock.path;
      MovedKeeps(t, root, from, to, Parent(lock.path));
    } else {
      MovedKeeps(t, root, from, to, lock.path);
    }
  }

  // ---------- logins ----------

  ghost predicate AuthOk(s: State, id: TokenId)
    requires id in s.auths
  {
    && id < s.next && id in s.authList && UserName(s.auths[id].user)
    && s.auths[id].owner in s.clients && s.clients[s.auths[id].owner].auth == Some(id)
  }

  /** Every live auth token is listed and belongs to a connected client; no two are for
      the same user. */
  ghost predicate AuthInv(s: State) {
    && (forall id <- s.auths :: AuthOk(s, id))
    && (forall c <- s.clients :: s.clients[c].auth.Some? ==>
          s.clients[c].auth.value in s.auths && s.auths[s.clients[c].auth.value].owner == c)
    && (forall i, j | i in s.auths && j in s.auths :: s.auths[i].user == s.auths[j].user ==> i == j)
    && (forall id <- s.authList :: id < s.next)
  }

  lemma SameAuths(s: State, s': State)
    requires AuthInv(s)
    requires s'.auths == s.auths && s'.authList == s.authList && s'.next >= s.next
    requires s'.clients.Keys >= s.clients.Keys
    requires forall c <- s'.clients :: s'.clients[c].auth == if c in s.clients then s.clients[c].auth else None
    ensures AuthInv(s')
  {
    forall id | id in s'.auths ensures AuthOk(s', id) {
      assert AuthOk(s, id);
    }
  }

  // ---------- clients ----------

  ghost predicate CtxOk(s: State, c: ClientId)
    requires c in s.clients
  {
    var ctx := s.clients[c];
    && (ctx.auth.Some? ==> WorkDir in ctx.held)
    && (ctx.mode == Upload <==> Storing in ctx.held)
    && (Sending in ctx.held ==> ctx.mode == Download)
    && (Storing in ctx.held ==> UploadOk(s, c))
    && TriesOk(ctx)
  }

  /** The count is that of the failures since the last login in seven bits, and a living
      client has failed fewer than three times. */
  ghost predicate TriesOk(ctx: Ctx) {
    && -64 <= ctx.tries <= 63 && (ctx.failures - ctx.tries) % 128 == 0
    && (ctx.alive ==> 0 <= ctx.tries <= 2 && ctx.tries == ctx.failures)
  }

  /** An upload runs under the name its client is logged in with. */
  ghost predicate UploadOk(s: State, c: ClientId)
    requires c in s.clients && Storing in s.clients[c].held
  {
    var ctx, id := s.clients[c], s.clients[c].held[Storing];
    && id in s.locks && s.locks[id].payload.Store?
    && ctx.auth.Some? && ctx.auth.value in s.auths && s.auths[ctx.auth.value].user == s.locks[id].payload.stem
  }

  ghost predicate CtxInv(s: State) { forall c <- s.clients :: CtxOk(s, c) }

  ghost predicate Inv(s: State) { TreeInv(s) && LockInv(s) && AuthInv(s) && CtxInv(s) }

  lemma InvParts(s: State)
    requires Inv(s)
    ensures TreeInv(s) && LockInv(s) && AuthInv(s) && CtxInv(s)
  {
  }

  lemma InitialInv(root: Path, tree: Tree)
    requires DiskOk(root, Disk(tree, map[]))
    ensures Inv(Initial(root, tree))
  {
  }

  /** What a step leaves alone of a client: what it holds, its login, its mode. */
  ghost predicate Untouched(s: State, s': State, d: ClientId) {
    && d in s.clients && d in s'.clients && SameCtx(s.clients[d], s'.clients[d])
    && (s.clients[d].auth.Some? && s.clients[d].auth.value in s.auths ==>
          s.clients[d].auth.value in s'.auths && s'.auths[s.clients[d].auth.value] == s.auths[s.clients[d].auth.value])
    && (Storing in s.clients[d].held ==> SameLock(s, s', s.clients[d].held[Storing]))
  }

  ghost predicate SameCtx(was: Ctx, now: Ctx) {
    now.held == was.held && now.auth == was.auth && now.mode == was.mode && (TriesOk(was) ==> TriesOk(now))
  }

  ghost predicate SameLock(s: State, s': State, id: TokenId) {
    id in s.locks ==> id in s'.locks && s'.locks[id] == s.locks[id]
  }

  lemma UntouchedOk(s: State, s': State, d: ClientId)
    requires Untouched(s, s', d) && CtxOk(s, d)
    ensures CtxOk(s', d)
  {
  }

  lemma AllUntouched(s: State, s': State)
    requires CtxInv(s) && forall d <- s'.clients :: Untouched(s, s', d)
    ensures CtxInv(s')
  {
    forall d | d in s'.clients ensures CtxOk(s', d) {
      assert Untouched(s, s', d) && CtxOk(s, d);
      UntouchedOk(s, s', d);
    }
  }

  /** Commands on the file tree. */
  lemma DiskStep(s: State, d: Disk)
    requires Inv(s) && TreeInv(SetDisk(s, d))
    ensures Inv(SetDisk(s, d))
  {
    hide TreeInv, LockInv, AuthInv, CtxInv;
    var s' := SetDisk(s, d);
    SameLocks(s, s');
    SameAuths(s, s');
    AllUntouched(s, s');
  }

  /** A client's own flags. */
  lemma CtxStep(s: State, c: ClientId, ctx: Ctx)
    requires Inv(s) && c in s.clients && SameCtx(s.clients[c], ctx)
    ensures Inv(SetCtx(s, c, ctx))
  {
    hide TreeInv, LockInv, AuthInv, CtxInv;
    SameLocks(s, SetCtx(s, c, ctx));
    SameTree(s, SetCtx(s, c, ctx));
    SameAuths(s, SetCtx(s, c, ctx));
    FlagsCtx(s, c, ctx);
  }

  lemma FlagsCtx(s: State, c: ClientId, ctx: Ctx)
    requires CtxInv(s) && c in s.clients && SameCtx(s.clients[c], ctx)
    ensures CtxInv(SetCtx(s, c, ctx))
  {
    var s' := SetCtx(s, c, ctx);
    forall d | d in s'.clients ensures CtxOk(s', d) {
      assert CtxOk(s, d) && Untouched(s, s', d);
      UntouchedOk(s, s', d);
    }
  }

  lemma ConnectKeeps(s: State, c: ClientId)
    requires Inv(s) && c !in s.clients
    ensures Inv(SetCtx(s, c, NEW_CLIENT))
  {
    hide TreeInv, LockInv, AuthInv, CtxInv;
    var s' := SetCtx(s, c, NEW_CLIENT);
    SameLocks(s, s');
    SameTree(s, s');
    SameAuths(s, s');
    ConnectCtx(s, c);
  }

  lemma ConnectCtx(s: State, c: ClientId)
    requires CtxInv(s) && c !in s.clients
    ensures CtxInv(SetCtx(s, c, NEW_CLIENT))
  {
    var s' := SetCtx(s, c, NEW_CLIENT);
    forall d | d in s'.clients ensures CtxOk(s', d) {
      if d != c {
        assert CtxOk(s, d);
        UntouchedOk(s, s', d);
      }
    }
  }

  lemma ReadyFacts(s: State, c: ClientId)
    requires Inv(s) && Ready(s, c)
    ensures IsDir(s.disk.tree, Cwd(s, c)) && s.root <= Cwd(s, c) && Ordinary(Cwd(s, c))
    ensures !(Conf(s.root) <= Cwd(s, c))
  {
    assert HeldOk(s, c, WorkDir);
    assert Placed(s.root, s.disk.tree, s.locks[s.clients[c].held[WorkDir]]);
  }

  lemma Below(dir: Path, name: string)
    requires Ordinary(dir) && Component(name)
    ensures Ordinary(dir + [name]) && Parent(dir + [name]) == dir && dir + [name] != []
  {
    assert forall i | 0 <= i < |dir| :: (dir + [name])[i] in dir;
  }

  lemma MkdirKeeps(s: State, c: ClientId, name: string)
    requires Inv(s) && Ready(s, c) && Component(name)
    ensures Inv(Mkdir(s, c, name))
  {
    var p := Cwd(s, c) + [name];
    if p !in s.disk.tree {
      ReadyFacts(s, c);
      Below(Cwd(s, c), name);
      AddedKeeps(s, p, Dir);
      DiskStep(s, Added(s.disk, p, Dir));
    }
  }

  lemma CpKeeps(s: State, c: ClientId, name: string, dir: Path)
    requires Inv(s) && Ready(s, c) && Component(name)
    ensures Inv(Cp(s, c, name, dir))
  {
    var t, from := s.disk.tree, Cwd(s, c) + [name];
    if IsFile(t, from) && IsDir(t, dir) && !Forbidden(s.root, dir) {
      Copy.CopyTargetOrdinary(t, dir, name);
      var p := Copy.CopyTarget(t, dir, name);
      assert p != [] by { assert p == Copy.Target(dir, name, Copy.Search(t, dir, name, 0)); }
      AddedKeeps(s, p, t[from]);
      DiskStep(s, Added(s.disk, p, t[from]));
    }
  }

  lemma RmKeeps(s: State, c: ClientId, name: string)
    requires Inv(s) && Ready(s, c) && Component(name)
    ensures Inv(Rm(s, c, name))
  {
    var p := Cwd(s, c) + [name];
    if p in s.disk.tree && !IsLocked(s, p) {
      ReadyFacts(s, c);
      assert |p| > |s.root|;
      RemovedKeeps(s, p);
      DiskStep(s, Erased(s.disk, p));
    }
  }

  lemma MoveKeeps(s: State, c: ClientId, name: string, dir: Path, target: string)
    requires Inv(s) && Ready(s, c) && Component(name) && Component(target) && IsDir(s.disk.tree, dir)
    requires var from, to := Cwd(s, c) + [name], dir + [target];
      from in s.disk.tree && !IsLocked(s, from) && to !in s.disk.tree && !(from <= to)
    ensures Inv(SetDisk(s, Relocated(s.disk, Cwd(s, c) + [name], dir + [target])))
  {
    hide LockInv, AuthInv, CtxInv, IsLocked, Moved;
    ReadyFacts(s, c);
    Below(dir, target);
    var from, to := Cwd(s, c) + [name], dir + [target];
    assert |from| > |s.root|;
    MovedKeepsLocks(s, from, to);
    DiskStep(s, Relocated(s.disk, from, to));
  }

  lemma RenameKeeps(s: State, c: ClientId, oname: string, nname: string)
    requires Inv(s) && Ready(s, c) && Component(oname) && Component(nname)
    ensures Inv(Rename(s, c, oname, nname))
  {
    hide Inv, IsLocked, Moved;
    var from, to := Cwd(s, c) + [oname], Cwd(s, c) + [nname];
    if from in s.disk.tree && !IsLocked(s, from) && from != to && to !in s.disk.tree {
      ReadyFacts(s, c);
      assert from <= to ==> from == to;
      MoveKeeps(s, c, oname, Cwd(s, c), nname);
    }
  }

  lemma MvKeeps(s: State, c: ClientId, name: string, dir: Path)
    requires Inv(s) && Ready(s, c) && Component(name)
    ensures Inv(Mv(s, c, name, dir))
  {
    hide Inv, IsLocked, Moved;
    var from, to := Cwd(s, c) + [name], dir + [name];
    if from in s.disk.tree && IsDir(s.disk.tree, dir) && !IsLocked(s, from) && to !in s.disk.tree && !(from <= to) {
      MoveKeeps(s, c, name, dir, name);
    }
  }

  /** A lock that keeps its owner and its role may change otherwise. */
  lemma EditKeeps(s: State, id: TokenId, lock: Lock)
    requires LockInv(s) && id in s.locks && lock.owner == s.locks[id].owner && lock.role == s.locks[id].role
    ensures LockInv(s.(locks := s.locks[id := lock]))
  {
    var s' := s.(locks := s.locks[id := lock]);
    forall i | i in s'.locks ensures LockOk(s', i) {
      assert LockOk(s, i);
    }
    forall d, r | d in s'.clients && r in s'.clients[d].held ensures HeldOk(s', d, r) {
      assert HeldOk(s, d, r);
    }
  }

  lemma CdKeeps(s: State, c: ClientId, path: Path)
    requires Inv(s) && Ready(s, c)
    ensures Inv(Cd(s, c, path))
  {
    if IsDir(s.disk.tree, path) && !Forbidden(s.root, path) {
      hide TreeInv, LockInv, AuthInv, CtxInv;
      CdLocks(s, c, path);
      SameAuths(s, Cd(s, c, path));
      AllUntouched(s, Cd(s, c, path));
    }
  }

  /** What is not forbidden is not in the configuration directory. */
  lemma AllowedOutside(root: Path, t: Tree, p: Path)
    requires WellFormed(t, root) && p in t && !Forbidden(root, p)
    ensures !(Conf(root) <= p)
  {
    if Conf(root) <= p {
      assert forall i | 0 <= i < |Conf(root)| :: Conf(root)[i] == p[i] && p[i] in p;
      AncestorsAreCovered(p, Conf(root));
      assert false;
    }
  }

  lemma CdLocks(s: State, c: ClientId, path: Path)
    requires LockInv(s) && TreeInv(s) && Ready(s, c) && IsDir(s.disk.tree, path) && !Forbidden(s.root, path)
    ensures LockInv(Cd(s, c, path)) && TreeInv(Cd(s, c, path))
    ensures forall d <- s.clients :: Untouched(s, Cd(s, c, path), d)
  {
    hide LockInv, TreeInv, Forbidden, Untouched, IsDir;
    var id := s.clients[c].held[WorkDir];
    CdTree(s, c, path);
    HeldOf(s, c, WorkDir);
    EditKeeps(s, id, s.locks[id].(path := path));
    forall d | d in s.clients ensures Untouched(s, Cd(s, c, path), d) { CdOther(s, c, path, d); }
  }

  lemma CdOther(s: State, c: ClientId, path: Path, d: ClientId)
    requires LockInv(s) && Ready(s, c) && d in s.clients
    ensures Untouched(s, Cd(s, c, path), d)
  {
    hide LockInv, Forbidden, IsDir;
    HeldOf(s, c, WorkDir);
    if Storing in s.clients[d].held { HeldOf(s, d, Storing); }
  }

  lemma CdTree(s: State, c: ClientId, path: Path)
    requires LockInv(s) && TreeInv(s) && Ready(s, c) && IsDir(s.disk.tree, path) && !Forbidden(s.root, path)
    ensures TreeInv(Cd(s, c, path))
  {
    var s', id := Cd(s, c, path), s.clients[c].held[WorkDir];
    AllowedOutside(s.root, s.disk.tree, path);
    assert Ordinary(path);
    hide LockInv, WellFormed;
    HeldOf(s, c, WorkDir);
    forall i | i in s'.locks ensures Placed(s.root, s.disk.tree, s'.locks[i]) {
      assert Placed(s.root, s.disk.tree, s.locks[i]);
    }
  }

  // ---------- steps that take or give up locks ----------

  /** Locks that a client does not give up stay as they are. */
  lemma ReleaseSpares(s: State, c: ClientId, role: Role, d: ClientId, r: Role)
    requires LockInv(s) && c in s.clients && d in s.clients && r in s.clients[d].held && (d != c || r != role)
    ensures SameLock(s, Release(s, c, role), s.clients[d].held[r])
  {
    assert HeldOk(s, d, r);
    assert role in s.clients[c].held ==> HeldOk(s, c, role);
  }

  lemma GrantSpares(s: State, c: ClientId, role: Role, path: Path, payload: Payload, d: ClientId, r: Role)
    requires LockInv(s) && c in s.clients && d in s.clients && r in s.clients[d].held && (d != c || r != role)
    ensures SameLock(s, Grant(s, c, role, path, payload), s.clients[d].held[r])
  {
    ListedKeeps(s);
    ReleaseSpares(Listed(s), c, role, d, r);
    assert HeldOk(s, d, r) && LockOk(s, s.clients[d].held[r]);
  }

  lemma ReleaseTree(s: State, c: ClientId, role: Role)
    requires TreeInv(s) && c in s.clients
    ensures TreeInv(Release(s, c, role))
  {
    forall id | id in Release(s, c, role).locks ensures Placed(s.root, s.disk.tree, s.locks[id]) {
    }
  }

  lemma GrantTree(s: State, c: ClientId, role: Role, path: Path, payload: Payload)
    requires TreeInv(s) && c in s.clients && Placed(s.root, s.disk.tree, Lock(path, c, role, payload))
    ensures TreeInv(Grant(s, c, role, path, payload))
  {
    ReleaseTree(Listed(s), c, role);
  }

  lemma GrantShape(s: State, c: ClientId, role: Role, path: Path, payload: Payload)
    requires c in s.clients
    ensures var s', ctx := Grant(s, c, role, path, payload), s.clients[c];
      && s'.clients == s.clients[c := ctx.(held := ctx.held[role := s.next])]
      && s.next in s'.locks && s'.locks[s.next] == Lock(path, c, role, payload)
      && s'.auths == s.auths && s'.authList == s.authList && s'.next == s.next + 1
      && s'.root == s.root && s'.disk == s.disk && s'.intent == s.intent
  {
    hide Sweep, Release;
    ReleaseShape(Listed(s), c, role, s.next);
    var ctx, freed := s.clients[c], Release(Listed(s), c, role);
    assert freed.clients[c].held[role := s.next] == ctx.held[role := s.next];
    assert Grant(s, c, role, path, payload).clients == s.clients[c := ctx.(held := ctx.held[role := s.next])];
  }

  lemma ReleaseShape(s: State, c: ClientId, role: Role, id: TokenId)
    requires c in s.clients
    ensures var s', ctx := Release(s, c, role), s.clients[c];
      && c in s'.clients && s'.clients == s.clients[c := s'.clients[c]]
      && s'.clients[c] == ctx.(held := s'.clients[c].held)
      && s'.clients[c].held[role := id] == ctx.held[role := id]
      && s' == s.(locks := s'.locks, clients := s'.clients)
  {
  }

  /** A new current directory or a new download request. */
  lemma GrantStep(s: State, c: ClientId, role: Role, path: Path, payload: Payload)
    requires Inv(s) && c in s.clients && (role == WorkDir || role == Requested)
    requires Placed(s.root, s.disk.tree, Lock(path, c, role, payload))
    ensures Inv(Grant(s, c, role, path, payload))
  {
    hide TreeInv, LockInv, AuthInv, CtxInv, Grant;
    var s' := Grant(s, c, role, path, payload);
    GrantKeeps(s, c, role, path, payload);
    GrantTree(s, c, role, path, payload);
    GrantShape(s, c, role, path, payload);
    SameAuths(s, s');
    GrantCtx(s, c, role, path, payload);
  }

  lemma GrantCtx(s: State, c: ClientId, role: Role, path: Path, payload: Payload)
    requires CtxInv(s) && LockInv(s) && c in s.clients && (role == WorkDir || role == Requested)
    ensures CtxInv(Grant(s, c, role, path, payload))
  {
    var s' := Grant(s, c, role, path, payload);
    GrantShape(s, c, role, path, payload);
    forall d | d in s'.clients ensures CtxOk(s', d) {
      assert CtxOk(s, d);
      if Storing in s.clients[d].held { GrantSpares(s, c, role, path, payload, d, Storing); }
      GrantCtxOne(s, s', c, role, d);
    }
  }

  lemma GrantCtxOne(s: State, s': State, c: ClientId, role: Role, d: ClientId)
    requires c in s.clients && d in s.clients && CtxOk(s, d) && (role == WorkDir || role == Requested)
    requires s'.clients == s.clients[c := s.clients[c].(held := s.clients[c].held[role := s.next])]
    requires s'.disk == s.disk && s'.auths == s.auths
    requires Storing in s.clients[d].held ==> SameLock(s, s', s.clients[d].held[Storing])
    ensures CtxOk(s', d)
  {
  }

  lemma ListedStep(s: State)
    requires Inv(s)
    ensures Inv(Listed(s))
  {
    hide TreeInv, LockInv, AuthInv, CtxInv, Sweep;
    ListedKeeps(s);
    SameTree(s, Listed(s));
    SameAuths(s, Listed(s));
    AllUntouched(s, Listed(s));
  }

  lemma DlKeeps(s: State, c: ClientId, name: string, offset: nat)
    requires Inv(s) && Ready(s, c) && Component(name)
    ensures Inv(Dl(s, c, name, offset))
  {
    hide Inv, Listed, Grant;
    var t, p := s.disk.tree, Cwd(s, c) + [name];
    if IsFile(t, p) {
      if offset > |TextOf(t[p])| {
        ListedStep(s);
      } else {
        ReadyFacts(s, c);
        Below(Cwd(s, c), name);
        GrantStep(s, c, Requested, p, Fetch(|TextOf(t[p])|, offset));
      }
    }
  }
}
