/** What each command does to the shared state, in every reachable state: what it changes,
    when it does so, and that it leaves everything else alone. */
module CommandEffects {
  import opened Options
  import opened Paths
  import opened Disks
  import opened Uploads
  import opened ProtocolMode
  import opened ServerState
  import opened ServerSafety
  import opened ServerRuns
  import opened ServerTheorems
  import Copy

  // ---------- who may do what ----------

  /** A client can give commands when it is logged in and neither sends nor receives. */
  lemma ReadyExactly(s: State, c: ClientId)
    requires Inv(s)
    ensures Ready(s, c) <==> c in s.clients && s.clients[c].mode == Command && s.clients[c].auth.Some?
  {
    if c in s.clients && s.clients[c].auth.Some? {
      assert CtxOk(s, c) && HeldOk(s, c, WorkDir);
    }
  }

  /** The names that commands take, and the ones that users can have. */
  lemma NamesExactly(name: string, user: User)
    ensures Component(name) <==> name !in ["", ".", ".."] && forall x <- name :: x != '/'
    ensures UserName(user) <==>
      forall x <- user :: x == '_' || '0' <= x <= '9' || 'A' <= x <= 'Z' || 'a' <= x <= 'z'
  {
  }

  /** Some live lock is in the way: on p, below it, or below something of which p's last
      name is the beginning. */
  ghost predicate LockedBy(s: State, p: Path) { exists id <- s.locks :: AgreesUpTo(p, s.locks[id].path) }

  lemma LockedExactly(s: State, p: Path)
    requires Inv(s) && p in s.disk.tree && p != []
    ensures IsLocked(s, p) <==> LockedBy(s, p)
  {
    forall id | id in s.locks ensures id in s.lockList && (Covers(s.locks[id].path, p) <==> AgreesUpTo(p, s.locks[id].path)) {
      assert LockOk(s, id) && Placed(s.root, s.disk.tree, s.locks[id]);
      LockTestExact(s.locks[id].path, p);
    }
    hide Inv, Covers, AgreesUpTo;
  }

  lemma ForbiddenExactly(s: State, p: Path)
    requires Inv(s) && p in s.disk.tree
    ensures Forbidden(s.root, p) <==> AgreesUpTo(Conf(s.root), p)
  {
    InvParts(s);
    assert Ordinary(s.root) && Ordinary(p);
    hide Inv, TreeInv;
    assert Component(".tds");
    Below(s.root, ".tds");
    LockTestExact(p, Conf(s.root));
  }

  // ---------- removing and moving ----------

  /** Everything at or below a is gone, and nothing else. */
  ghost predicate GoneFrom(t: Tree, t': Tree, a: Path) {
    && (forall q: Path :: q in t' <==> q in t && !(a <= q))
    && (forall q <- t' :: q in t && t'[q] == t[q])
  }

  lemma RmEffect(s: State, c: ClientId, name: string)
    requires Inv(s) && Ready(s, c) && Component(name)
    ensures var s', p := Step(s, DoRm(c, name)), Cwd(s, c) + [name];
      if p in s.disk.tree && !LockedBy(s, p) then
        && s' == s.(disk := s'.disk) && GoneFrom(s.disk.tree, s'.disk.tree, p)
        && (forall h :: h in s'.disk.open <==> h in s.disk.open && !(p <= s.disk.open[h]))
        && (forall h <- s'.disk.open :: h in s.disk.open && s'.disk.open[h] == s.disk.open[h])
      else s' == s
  {
    hide Inv, LockedBy, IsLocked;
    if Cwd(s, c) + [name] in s.disk.tree { LockedExactly(s, Cwd(s, c) + [name]); }
  }

  /** What was at or below `from` is at and below `to`, and nothing else has changed. */
  ghost predicate MovedTo(t: Tree, t': Tree, from: Path, to: Path) {
    && (forall q: Path :: from <= q ==> q !in t')
    && (forall q <- t :: from <= q ==> to + q[|from|..] in t' && t'[to + q[|from|..]] == t[q])
    && (forall q <- t :: !(from <= q) ==> q in t' && t'[q] == t[q])
    && (forall q <- t' :: q in t || (to <= q && from + q[|to|..] in t))
  }

  lemma RelocatedTo(t: Tree, root: Path, from: Path, to: Path)
    requires Movable(t, root, from, to)
    ensures MovedTo(t, Moved(t, from, to), from, to)
  {
    hide Moved, Movable;
    var t' := Moved(t, from, to);
    forall q: Path | from <= q ensures q !in t' { NotBelowBoth(t, root, from, to, q); }
    forall q | q in t && from <= q ensures to + q[|from|..] in t' && t'[to + q[|from|..]] == t[q] {
      MovedFile(t, root, from, to, q);
    }
    forall q | q in t && !(from <= q) ensures q in t' && t'[q] == t[q] { MovedKeeps(t, root, from, to, q); }
    forall q | q in t' ensures q in t || (to <= q && from + q[|to|..] in t) { MovedExact(t, from, to, q); }
  }

  /** Nothing is left below the origin: the target is not above it either. */
  lemma NotBelowBoth(t: Tree, root: Path, from: Path, to: Path, q: Path)
    requires Movable(t, root, from, to) && from <= q
    ensures q !in Moved(t, from, to)
  {
    MovedExact(t, from, to, q);
    if to <= q {
      assert to <= from by { assert |to| <= |from| ==> to == q[..|to|] && from[..|to|] == q[..|to|]; }
      NothingUnder(t, root, to, from);
      assert false;
    }
  }

  /** When `rename` or `mv` goes through. */
  ghost predicate MayMove(s: State, from: Path, to: Path) {
    from in s.disk.tree && !LockedBy(s, from) && to !in s.disk.tree
  }

  ghost predicate MoveDone(s: State, s': State, from: Path, to: Path) {
    && s' == s.(disk := s'.disk) && MovedTo(s.disk.tree, s'.disk.tree, from, to)
    && s'.disk.open.Keys == s.disk.open.Keys
    && forall h <- s.disk.open ::
         s'.disk.open[h] == if from <= s.disk.open[h] then to + s.disk.open[h][|from|..] else s.disk.open[h]
  }

  lemma MoveIsDone(s: State, c: ClientId, name: string, dir: Path, target: string)
    requires Inv(s) && Ready(s, c) && Component(name) && Component(target) && IsDir(s.disk.tree, dir)
    requires var from, to := Cwd(s, c) + [name], dir + [target];
      from in s.disk.tree && to !in s.disk.tree && !(from <= to)
    ensures var from, to := Cwd(s, c) + [name], dir + [target];
      MoveDone(s, SetDisk(s, Relocated(s.disk, from, to)), from, to)
  {
    hide Inv, Moved, Movable, MovedTo;
    var from, to := Cwd(s, c) + [name], dir + [target];
    MoveAllowed(s, c, name, dir, target);
    RelocatedTo(s.disk.tree, s.root, from, to);
  }

  lemma MoveAllowed(s: State, c: ClientId, name: string, dir: Path, target: string)
    requires Inv(s) && Ready(s, c) && Component(target) && IsDir(s.disk.tree, dir)
    requires var from, to := Cwd(s, c) + [name], dir + [target];
      from in s.disk.tree && to !in s.disk.tree && !(from <= to)
    ensures Movable(s.disk.tree, s.root, Cwd(s, c) + [name], dir + [target])
  {
    hide Inv, WellFormed;
    TreeIsWellFormed(s);
    ReadyFacts(s, c);
    DirOrdinary(s, dir);
    Below(dir, target);
    assert |Cwd(s, c) + [name]| > |s.root|;
  }

  lemma TreeIsWellFormed(s: State)
    requires Inv(s)
    ensures WellFormed(s.disk.tree, s.root)
  {
  }

  lemma DirOrdinary(s: State, dir: Path)
    requires Inv(s) && IsDir(s.disk.tree, dir)
    ensures Ordinary(dir)
  {
    TreeIsWellFormed(s);
  }

  lemma RenameEffect(s: State, c: ClientId, oname: string, nname: string)
    requires Inv(s) && Ready(s, c) && Component(oname) && Component(nname)
    ensures var s', from, to := Step(s, DoRename(c, oname, nname)), Cwd(s, c) + [oname], Cwd(s, c) + [nname];
      if MayMove(s, from, to) then MoveDone(s, s', from, to) else s' == s
  {
    hide Inv, LockedBy, IsLocked, Relocated, MoveDone;
    var from, to := Cwd(s, c) + [oname], Cwd(s, c) + [nname];
    if from in s.disk.tree {
      LockedExactly(s, from);
      ReadyFacts(s, c);
      assert from <= to ==> from == to;
      if MayMove(s, from, to) { MoveIsDone(s, c, oname, Cwd(s, c), nname); }
    }
  }

  lemma MvEffect(s: State, c: ClientId, name: string, dir: Path)
    requires Inv(s) && Ready(s, c) && Component(name)
    ensures var s', from, to := Step(s, DoMv(c, name, dir)), Cwd(s, c) + [name], dir + [name];
      if MayMove(s, from, to) && IsDir(s.disk.tree, dir) && !AgreesUpTo(Conf(s.root), dir) && !(from <= to)
      then MoveDone(s, s', from, to) else s' == s
  {
    hide Inv, LockedBy, IsLocked, Relocated, MoveDone, Forbidden, AgreesUpTo;
    var from, to := Cwd(s, c) + [name], dir + [name];
    if dir in s.disk.tree { ForbiddenExactly(s, dir); }
    if from in s.disk.tree {
      LockedExactly(s, from);
      if MayMove(s, from, to) && IsDir(s.disk.tree, dir) && !(from <= to) { MoveIsDone(s, c, name, dir, name); }
    }
  }

  // ---------- adding ----------

  lemma MkdirEffect(s: State, c: ClientId, name: string)
    requires Inv(s) && Ready(s, c) && Component(name)
    ensures var s', p := Step(s, DoMkdir(c, name)), Cwd(s, c) + [name];
      s' == if p in s.disk.tree then s else s.(disk := Disk(s.disk.tree[p := Dir], s.disk.open))
  {
    hide Inv;
  }

  lemma CpEffect(s: State, c: ClientId, name: string, dir: Path) returns (k: nat, p: Path)
    requires Inv(s) && Ready(s, c) && Component(name)
    ensures Copy.CopyAt(s.disk.tree, dir, name, k, p)
    ensures var s', t, from := Step(s, DoCp(c, name, dir)), s.disk.tree, Cwd(s, c) + [name];
      s' == if IsFile(t, from) && IsDir(t, dir) && !AgreesUpTo(Conf(s.root), dir)
            then s.(disk := Disk(t[p := t[from]], s.disk.open)) else s
  {
    hide Inv, Forbidden, AgreesUpTo, Copy.CopyAt;
    if dir in s.disk.tree { ForbiddenExactly(s, dir); }
    k, p := Copy.CopyFound(s.disk.tree, dir, name);
  }

  // ---------- logins ----------

  /** A new connection: alive, nobody yet, holding nothing. */
  lemma ConnectEffect(s: State, c: ClientId)
    ensures Step(s, Connect(c)) ==
      if c in s.clients then s else s.(clients := s.clients[c := Ctx(true, 0, Command, None, map[], 0)])
  {
  }

  lemma KillEffect(s: State, c: ClientId)
    requires c in s.clients
    ensures var s' := Step(s, Kill(c));
      && s' == s.(clients := s'.clients) && s'.clients == s.clients[c := s'.clients[c]]
      && !s'.clients[c].alive && s'.clients[c].(alive := s.clients[c].alive) == s.clients[c]
  {
  }

  lemma LogoutEffect(s: State, c: ClientId)
    requires Inv(s) && Ready(s, c)
    ensures var s', user := Step(s, DoLogout(c)), UserOf(s, c);
      && c in s'.clients && s'.clients[c] == s.clients[c].(auth := None) && s'.clients == s.clients[c := s'.clients[c]]
      && s' == s.(clients := s'.clients, auths := s'.auths)
      && (forall id <- s'.auths :: id in s.auths && s'.auths[id] == s.auths[id] && s'.auths[id].user != user)
      && (forall id <- s.auths :: s.auths[id].user != user ==> id in s'.auths)
  {
    hide TreeInv, LockInv, CtxInv;
  }

  /** A bad password is counted, and the third in a row kills; nothing else happens. */
  lemma BadPasswordEffect(s: State, c: ClientId, user: User)
    requires Inv(s) && c in s.clients && s.clients[c].mode == Command
    ensures var s', ctx := Step(s, DoAuth(c, user, false)), s.clients[c];
      && c in s'.clients && s'.clients == s.clients[c := s'.clients[c]]
      && s'.clients[c] == ctx.(tries := s'.clients[c].tries, failures := ctx.failures + 1, alive := s'.clients[c].alive)
      && (s'.clients[c].alive <==> ctx.alive && ctx.failures + 1 <= 2)
      && s' == s.(clients := s'.clients, authList := s'.authList)
  {
    assert CtxOk(s, c);
    hide Inv, CtxOk, Sweep;
    FailedShape(s.clients[c]);
    hide Failed, TriesOk;
  }

  lemma FailedShape(ctx: Ctx)
    requires TriesOk(ctx)
    ensures var now := Failed(ctx);
      && now == ctx.(tries := now.tries, failures := ctx.failures + 1, alive := now.alive)
      && (now.alive <==> ctx.alive && ctx.failures + 1 <= 2)
  {
  }

  /** A good password logs the client in, at the root, if and only if it is not logged in and
      nobody is under that name. */
  lemma GoodPasswordEffect(s: State, c: ClientId, user: User)
    requires Inv(s) && c in s.clients && s.clients[c].mode == Command && UserName(user)
    ensures var s', ctx := Step(s, DoAuth(c, user, true)), s.clients[c];
      && c in s'.clients && s'.disk == s.disk && (forall d <- s.clients :: d != c ==> d in s'.clients && s'.clients[d] == s.clients[d])
      && if ctx.auth.None? && forall id <- s.auths :: s.auths[id].user != user then
           && Ready(s', c) && UserOf(s', c) == user && Cwd(s', c) == s.root
           && s'.clients[c].tries == 0 && s'.clients[c].failures == 0 && s'.clients[c].alive == ctx.alive
         else s'.clients == s.clients && s'.auths == s.auths && s'.locks == s.locks
  {
    hide Inv, Step, NameTaken, Swept;
    NameTakenExactly(s, user);
    if s.clients[c].auth.None? && !NameTaken(Swept(s), user) { LogsIn(s, c, user); } else { StaysOut(s, c, user); }
  }

  lemma LogsIn(s: State, c: ClientId, user: User)
    requires c in s.clients && s.clients[c].mode == Command && UserName(user)
    requires s.clients[c].auth.None? && !NameTaken(Swept(s), user)
    ensures var s', ctx := Step(s, DoAuth(c, user, true)), s.clients[c];
      && c in s'.clients && s'.disk == s.disk && (forall d <- s.clients :: d != c ==> d in s'.clients && s'.clients[d] == s.clients[d])
      && Ready(s', c) && UserOf(s', c) == user && Cwd(s', c) == s.root
      && s'.clients[c].tries == 0 && s'.clients[c].failures == 0 && s'.clients[c].alive == ctx.alive
  {
    hide Sweep, NameTaken, Grant, UserName;
    var s2 := LoggedIn(ListedAuth(Swept(s)), c, user, s.next);
    assert Step(s, DoAuth(c, user, true)) == Grant(s2, c, WorkDir, s.root, Plain);
    hide Step;
    GrantShape(s2, c, WorkDir, s.root, Plain);
  }

  lemma StaysOut(s: State, c: ClientId, user: User)
    requires c in s.clients && s.clients[c].mode == Command && UserName(user)
    requires s.clients[c].auth.Some? || NameTaken(Swept(s), user)
    ensures var s' := Step(s, DoAuth(c, user, true));
      s'.clients == s.clients && s'.auths == s.auths && s'.locks == s.locks && s'.disk == s.disk
  {
    hide Sweep, NameTaken, Grant, UserName;
  }

  lemma NameTakenExactly(s: State, user: User)
    requires Inv(s)
    ensures NameTaken(Swept(s), user) <==> exists id <- s.auths :: s.auths[id].user == user
  {
    forall id | id in s.auths ensures id in s.authList { assert AuthOk(s, id); }
    hide TreeInv, LockInv, AuthInv, CtxInv;
  }

  /** The current directory changes if and only if the new one is a directory outside the
      configuration directory; nothing else does. */
  lemma CdEffect(s: State, c: ClientId, path: Path)
    requires Inv(s) && Ready(s, c)
    ensures var s', id := Step(s, DoCd(c, path)), s.clients[c].held[WorkDir];
      s' == if IsDir(s.disk.tree, path) && !AgreesUpTo(Conf(s.root), path)
            then s.(locks := s.locks[id := Lock(path, c, WorkDir, Plain)]) else s
  {
    hide Inv, Ready, Forbidden, AgreesUpTo;
    WorkDirLock(s, c);
    if path in s.disk.tree { ForbiddenExactly(s, path); }
  }

  lemma WorkDirLock(s: State, c: ClientId)
    requires Inv(s) && Ready(s, c)
    ensures s.locks[s.clients[c].held[WorkDir]] == Lock(Cwd(s, c), c, WorkDir, Plain)
  {
    InvParts(s);
    hide Inv, TreeInv, LockInv;
    HeldOf(s, c, WorkDir);
    PlacedOf(s, s.clients[c].held[WorkDir]);
  }

  lemma PlacedOf(s: State, id: TokenId)
    requires TreeInv(s) && id in s.locks
    ensures Placed(s.root, s.disk.tree, s.locks[id])
  {
  }

  // ---------- downloads ----------

  /** `dl` that is refused changes nothing but the list of weak pointers. */
  lemma DlRefused(s: State, c: ClientId, name: string, offset: nat)
    requires Inv(s) && Ready(s, c) && Component(name)
    requires var p := Cwd(s, c) + [name]; !(IsFile(s.disk.tree, p) && offset <= |TextOf(s.disk.tree[p])|)
    ensures var s' := Step(s, DoDl(c, name, offset)); s' == s.(lockList := s'.lockList, next := s'.next)
  {
    hide Inv, Sweep;
  }

  /** `dls` uses the token of the last `dl`: it becomes the download manager's, except that
      of an empty file, which dies; without one nothing happens. */
  lemma DlsEffect(s: State, c: ClientId)
    requires Inv(s) && Ready(s, c)
    ensures Requested in s.clients[c].held ==> s.clients[c].held[Requested] in s.locks
    ensures var s', ctx := Step(s, DoDls(c)), s.clients[c];
      if Requested !in ctx.held then s' == s
      else
        var id := ctx.held[Requested];
        && s' == s.(clients := s'.clients, locks := s'.locks)
        && c in s'.clients && s'.clients == s.clients[c := s'.clients[c]]
        && s'.clients[c].mode == Download && Requested !in s'.clients[c].held
        && s.locks[id].payload.Fetch?
        && if s.locks[id].payload.size > 0
           then Sending in s'.clients[c].held && s'.clients[c].held[Sending] == id
                && s'.locks == s.locks[id := s.locks[id].(role := Sending)]
           else Sending !in s'.clients[c].held && s'.locks == s.locks - {id}
  {
    hide Inv, Step;
    if Requested in s.clients[c].held {
      RequestFetches(s, c);
      DlsMoves(s, c);
    } else {
      DlsNothing(s, c);
    }
  }

  lemma RequestFetches(s: State, c: ClientId)
    requires Inv(s) && Ready(s, c) && Requested in s.clients[c].held
    ensures s.clients[c].held[Requested] in s.locks && s.locks[s.clients[c].held[Requested]].payload.Fetch?
    ensures Sending !in s.clients[c].held
  {
    InvParts(s);
    hide Inv, TreeInv, LockInv, AuthInv, CtxInv;
    HeldOf(s, c, Requested);
    DlsRole(s, c);
    PlacedOf(s, s.clients[c].held[Requested]);
  }

  lemma DlsNothing(s: State, c: ClientId)
    requires Ready(s, c) && Requested !in s.clients[c].held
    ensures Step(s, DoDls(c)) == s
  {
  }

  lemma DlsMoves(s: State, c: ClientId)
    requires Ready(s, c) && Requested in s.clients[c].held && Sending !in s.clients[c].held
    requires s.clients[c].held[Requested] in s.locks && s.locks[s.clients[c].held[Requested]].payload.Fetch?
    ensures var s', ctx, id := Step(s, DoDls(c)), s.clients[c], s.clients[c].held[Requested];
      && s' == s.(clients := s'.clients, locks := s'.locks)
      && c in s'.clients && s'.clients == s.clients[c := s'.clients[c]]
      && s'.clients[c].mode == Download && Requested !in s'.clients[c].held
      && if s.locks[id].payload.size > 0
         then Sending in s'.clients[c].held && s'.clients[c].held[Sending] == id
              && s'.locks == s.locks[id := s.locks[id].(role := Sending)]
         else Sending !in s'.clients[c].held && s'.locks == s.locks - {id}
  {
    assert Step(s, DoDls(c)) == Dls(s, c);
    hide Step;
  }

  /** An empty file needs no transfer. */
  lemma EmptySentEffect(s: State, c: ClientId, count: nat)
    requires c in s.clients && s.clients[c].mode == Download && Sending !in s.clients[c].held
    ensures Step(s, DoSent(c, count)) == s.(clients := s.clients[c := s.clients[c].(mode := Command)])
  {
  }

  // ---------- uploads ----------

  /** An upload to this path can start: nothing is there, it has a parent, the size is
      allowed, and no live lock is on exactly this path. */
  ghost predicate FreeToUpload(s: State, path: Path, fits: bool) {
    && path != [] && path !in s.disk.tree && path[..|path| - 1] in s.disk.tree && fits
    && forall id <- s.locks :: s.locks[id].path != path
  }

  lemma FreeExactly(s: State, path: Path, fits: bool)
    requires LockInv(s)
    ensures MayUpload(s, path, fits) <==> FreeToUpload(s, path, fits)
  {
    forall id | id in s.locks ensures id in s.lockList { assert LockOk(s, id); }
    hide LockInv;
  }

  /** The temporary file can be opened: its directory is there and no directory in its
      place. */
  ghost predicate CanOpen(s: State, user: User) {
    var p := s.root + [".tds"] + [user + ".partial"];
    IsDir(s.disk.tree, s.root + [".tds"]) && !IsDir(s.disk.tree, p)
  }

  /** `ul` starts an upload if and only if the path is free; the upload has the announced
      size, starts at 0 and lives if the temporary file can be opened; otherwise nothing
      happens. */
  lemma UlEffect(s: State, c: ClientId, name: string, source: string, fits: bool)
    requires LockInv(s) && Ready(s, c) && Component(name)
    ensures var s', path, user := Step(s, DoUl(c, name, source, fits)), Cwd(s, c) + [name], UserOf(s, c);
      && c in s'.clients
      && (s'.clients[c].mode == Upload <==> FreeToUpload(s, path, fits))
      && (s'.clients[c].mode != Upload ==> s' == s)
      && (s'.clients[c].mode == Upload ==>
            && Uploading(s', c, path, |source|, 0, user, CanOpen(s, user))
            && s'.clients[c].alive == (s.clients[c].alive && CanOpen(s, user)))
  {
    hide LockInv, Step, FreeToUpload, MayUpload, CanOpen, Receive;
    var path, user := Cwd(s, c) + [name], UserOf(s, c);
    FreeExactly(s, path, fits);
    UlIs(s, c, name, source, fits);
    if MayUpload(s, path, fits) { ReceiveStarts(s, c, Token(path, |source|, 0, user)); }
  }

  /** A client's upload token. */
  ghost predicate Uploading(s: State, c: ClientId, path: Path, size: nat, offset: nat, user: User, begun: bool) {
    && c in s.clients && s.clients[c].mode == Upload && Storing in s.clients[c].held && s.clients[c].held[Storing] in s.locks
    && s.locks[s.clients[c].held[Storing]] == Lock(path, c, Storing, Store(size, offset, user, begun))
  }

  lemma UlIs(s: State, c: ClientId, name: string, source: string, fits: bool)
    requires Ready(s, c) && Component(name)
    ensures var s', path, user := Step(s, DoUl(c, name, source, fits)), Cwd(s, c) + [name], UserOf(s, c);
      if MayUpload(s, path, fits)
      then s' == Receive(s, c, Token(path, |source|, 0, user)).(intent := s.intent[user := Intent(path, source)])
      else s' == s
  {
    hide MayUpload, Receive;
  }

  lemma ReceiveStarts(s: State, c: ClientId, t: Token)
    requires c in s.clients
    ensures var s' := Receive(s, c, t);
      && c in s'.clients && s'.clients[c].mode == Upload
      && Uploading(s', c, t.path, t.size, t.offset, t.stem, CanOpen(s, t.stem))
      && s'.clients[c].alive == (s.clients[c].alive && CanOpen(s, t.stem))
  {
    OpenExactly(s, t.stem);
    hide Grant, Opened, Openable, CanOpen;
    GrantShape(s, c, Storing, t.path, Store(t.size, t.offset, t.stem, Openable(s.disk.tree, s.root, t.stem)));
  }

  lemma OpenExactly(s: State, user: User)
    ensures Openable(s.disk.tree, s.root, user) <==> CanOpen(s, user)
  {
  }

  /** Upload bytes: what is missing is counted, the client is back in command mode with the
      last byte if the file can be put in place, and dies if it cannot. */
  lemma DataEffect(s: State, c: ClientId, bytes: string)
    requires Inv(s) && Receives(s, c)
    ensures var s', t, tree, ctx := Step(s, DoData(c, bytes)), TokenOf(s, c), s.disk.tree, s.clients[c];
      var last := |bytes| >= t.size - t.offset;
      var placeable := IsFile(tree, s.root + [".tds"] + [t.stem + ".partial"])
        && IsDir(tree, t.path[..|t.path| - 1]) && !IsDir(tree, t.path);
      && c in s'.clients && s'.clients == s.clients[c := s'.clients[c]]
      && (s'.clients[c].mode == Command <==> last && placeable)
      && (s'.clients[c].alive <==> ctx.alive && !(last && !placeable))
      && (s'.clients[c].mode == Command ==> Storing !in s'.clients[c].held && s'.locks == s.locks - {FileOf(s, c)})
      && (s'.clients[c].mode != Command ==>
            Uploading(s', c, t.path, t.size, if last then t.size else t.offset + |bytes|, t.stem, true))
  {
    InvParts(s);
    TokenPlaced(s, c);
    PlaceableExactly(s, c, bytes);
    OwnLock(s, c);
    hide Inv, TreeInv, LockInv, Written, Replaced, Filled, IsFile, IsDir;
    DataBranches(s, c, bytes);
  }

  /** The files that uploads have open: the client's own is closed with the last byte, and
      when a file is put in place, one that was open there loses its place and one that was
      open on the temporary file moves along. */
  lemma OpenAfterData(s: State, c: ClientId, bytes: string)
    requires Inv(s) && Receives(s, c)
    ensures var s', t, open := Step(s, DoData(c, bytes)), TokenOf(s, c), s.disk.open;
      var last, partial := |bytes| >= t.size - t.offset, s.root + [".tds"] + [t.stem + ".partial"];
      && c in s'.clients
      && var placed := s'.clients[c].mode == Command;
        && (forall h :: h in s'.disk.open <==>
              h in open && !(last && h == FileOf(s, c)) && !(placed && open[h] == t.path))
        && (forall h <- s'.disk.open :: h in open && s'.disk.open[h] == if placed && open[h] == partial then t.path else open[h])
  {
    InvParts(s);
    TokenPlaced(s, c);
    TemporaryInside(s.root, TokenOf(s, c).stem);
    OpenAfterCommit(s.disk, s.root, FileOf(s, c), TokenOf(s, c), bytes);
    DataCommitted(s, c, bytes);
    hide Inv, TreeInv, LockInv, Step, Receives, Committed;
  }

  lemma DataCommitted(s: State, c: ClientId, bytes: string)
    requires Receives(s, c)
    ensures var s', r := Step(s, DoData(c, bytes)), Committed(s.disk, s.root, FileOf(s, c), TokenOf(s, c), bytes);
      s'.disk == r.disk && c in s'.clients && (s'.clients[c].mode == Command <==> r.token.None?)
  {
    hide Committed;
  }

  lemma OpenAfterCommit(d: Disk, root: Path, h: Handle, t: Token, bytes: string)
    requires ValidToken(t) && t.path != PartialPath(root, t.stem)
    ensures var r, last := Committed(d, root, h, t, bytes), |bytes| >= t.size - t.offset;
      && (forall k :: k in r.disk.open <==> k in d.open && !(last && k == h) && !(r.token.None? && d.open[k] == t.path))
      && (forall k <- r.disk.open :: k in d.open
            && r.disk.open[k] == if r.token.None? && d.open[k] == PartialPath(root, t.stem) then t.path else d.open[k])
  {
    hide Renamable, PartialPath;
  }

  lemma OwnLock(s: State, c: ClientId)
    requires LockInv(s) && Receives(s, c)
    ensures var lock := s.locks[FileOf(s, c)]; lock.owner == c && lock.role == Storing
  {
    hide LockInv;
    HeldOf(s, c, Storing);
  }

  lemma PlaceableExactly(s: State, c: ClientId, bytes: string)
    requires TreeInv(s) && Receives(s, c)
    ensures var t, tree := TokenOf(s, c), s.disk.tree;
      Renamable(Filled(s, c, bytes).tree, PartialPath(s.root, t.stem), t.path) <==>
        IsFile(tree, s.root + [".tds"] + [t.stem + ".partial"]) && IsDir(tree, t.path[..|t.path| - 1]) && !IsDir(tree, t.path)
  {
    var t := TokenOf(s, c);
    var p := PartialPath(s.root, t.stem);
    SameKind(s, c, bytes, p);
    SameKind(s, c, bytes, Parent(t.path));
    SameKind(s, c, bytes, t.path);
    hide TreeInv, Filled;
  }

  lemma SameKind(s: State, c: ClientId, bytes: string, p: Path)
    requires TreeInv(s) && Receives(s, c)
    ensures var t, t' := s.disk.tree, Filled(s, c, bytes).tree; IsFile(t', p) == IsFile(t, p) && IsDir(t', p) == IsDir(t, p)
  {
    if p in s.disk.tree { FilledKind(s, c, bytes, p); } else { FilledNew(s, c, bytes, p); }
  }

  lemma FilledNew(s: State, c: ClientId, bytes: string, p: Path)
    requires TreeInv(s) && Receives(s, c) && p !in s.disk.tree
    ensures p !in Filled(s, c, bytes).tree
  {
  }

  lemma DataBranches(s: State, c: ClientId, bytes: string)
    requires Receives(s, c) && s.locks[FileOf(s, c)].owner == c && s.locks[FileOf(s, c)].role == Storing
    ensures var s', t, ctx := Step(s, DoData(c, bytes)), TokenOf(s, c), s.clients[c];
      var last := |bytes| >= t.size - t.offset;
      && c in s'.clients && s'.clients == s.clients[c := s'.clients[c]]
      && if last && Renamable(Filled(s, c, bytes).tree, PartialPath(s.root, t.stem), t.path) then
           && s'.clients[c] == ctx.(mode := Command, held := ctx.held - {Storing}) && s'.locks == s.locks - {FileOf(s, c)}
         else
           && s'.clients[c].mode == Upload && s'.clients[c].alive == (ctx.alive && !last)
           && Uploading(s', c, t.path, t.size, if last then t.size else t.offset + |bytes|, t.stem, true)
  {
    CommittedShape(s.disk, s.root, FileOf(s, c), TokenOf(s, c), bytes);
    hide Committed, Written, Renamable;
  }

  lemma CommittedShape(d: Disk, root: Path, h: Handle, t: Token, bytes: string)
    requires ValidToken(t)
    ensures var r, last := Committed(d, root, h, t, bytes), |bytes| >= t.size - t.offset;
      var filled := Written(d, h, bytes[..if last then t.size - t.offset else |bytes|]);
      if last && Renamable(Closed(filled, h).tree, PartialPath(root, t.stem), t.path) then r.token.None?
      else r.token == Some(t.(offset := if last then t.size else t.offset + |bytes|)) && r.thrown == last
  {
    hide Written, Replaced, Renamable, Closed;
  }

  /** A disconnection takes the client, its login and its locks, and no one else's; an upload
      in progress leaves its record if that can be written. */
  lemma DisconnectEffect(s: State, c: ClientId)
    requires Inv(s) && c in s.clients
    ensures var s', tree := Step(s, Disconnect(c)), s.disk.tree;
      && s'.clients == s.clients - {c} && s'.intent == s.intent && s'.root == s.root
      && (forall id :: id in s'.locks <==> id in s.locks && s.locks[id].owner != c)
      && (forall id <- s'.locks :: id in s.locks && s'.locks[id] == s.locks[id])
      && (forall id :: id in s'.auths <==> id in s.auths && s.auths[id].owner != c)
      && (forall id <- s'.auths :: id in s.auths && s'.auths[id] == s.auths[id])
      && if Receives(s, c) then
           var t, b := TokenOf(s, c), s.root + [".tds"] + [TokenOf(s, c).stem + ".upload"];
           && s'.disk.open == s.disk.open - {s.clients[c].held[Storing]}
           && s'.disk.tree == if IsDir(tree, s.root + [".tds"]) && !IsDir(tree, b)
                              then tree[b := Notes(Record(t.path, t.size, t.offset))] else tree
         else s'.disk == s.disk
  {
    CloseOwn(s, c);
    CloseDisk(s, c);
    hide Inv;
    assert Step(s, Disconnect(c)) == Close(s, c);
    hide Step;
    ClosedDiskIs(s, c);
  }

  lemma CloseOwn(s: State, c: ClientId)
    requires Inv(s) && c in s.clients
    ensures var s' := Close(s, c);
      && s'.clients == s.clients - {c}
      && (forall id :: id in s'.locks <==> id in s.locks && s.locks[id].owner != c)
      && (forall id <- s'.locks :: id in s.locks && s'.locks[id] == s.locks[id])
      && (forall id :: id in s'.auths <==> id in s.auths && s.auths[id].owner != c)
      && (forall id <- s'.auths :: id in s.auths && s'.auths[id] == s.auths[id])
  {
    forall id | id in s.locks ensures id in s.clients[c].held.Values <==> s.locks[id].owner == c {
      assert LockOk(s, id);
      assert forall role <- s.clients[c].held :: HeldOk(s, c, role);
    }
    forall id | id in s.auths ensures s.clients[c].auth == Some(id) <==> s.auths[id].owner == c {
      assert AuthOk(s, id);
    }
    hide TreeInv, LockInv, CtxInv;
  }

  lemma ClosedDiskIs(s: State, c: ClientId)
    requires c in s.clients
    ensures var d, tree := ClosedDisk(s, c), s.disk.tree;
      if Receives(s, c) then
        var t, b := TokenOf(s, c), s.root + [".tds"] + [TokenOf(s, c).stem + ".upload"];
        && d.open == s.disk.open - {s.clients[c].held[Storing]}
        && d.tree == if IsDir(tree, s.root + [".tds"]) && !IsDir(tree, b)
                     then tree[b := Notes(Record(t.path, t.size, t.offset))] else tree
      else d == s.disk
  {
  }
}
