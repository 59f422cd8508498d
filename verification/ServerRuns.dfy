/** Runs of the shared server state: the invariant in every reachable state, and what it
    gives: undisturbed locks, one client per user, exact uploads. */
module ServerRuns {
  import opened Paths
  import opened Disks
  import opened Uploads
  import opened ProtocolMode
  import opened ServerState
  import opened ServerSafety

  // ---------- what a command leaves alone ----------

  /** The same clients, none of the dead comes back to life, and only c changes its mode. */
  ghost predicate KeepsClients(s: State, s': State, c: ClientId) {
    && s'.clients.Keys == s.clients.Keys
    && forall d <- s.clients ::
         && (s'.clients[d].alive ==> s.clients[d].alive)
         && (d != c ==> s'.clients[d].mode == s.clients[d].mode)
  }

  ghost predicate KeepsDisk(s: State, s': State) {
    s'.disk == s.disk && s'.intent == s.intent && s'.root == s.root
  }

  lemma ReleaseMild(s: State, c: ClientId, role: Role)
    requires c in s.clients
    ensures KeepsClients(s, Release(s, c, role), c) && KeepsDisk(s, Release(s, c, role))
  {
  }

  lemma GrantMild(s: State, c: ClientId, role: Role, path: Path, payload: Payload)
    requires c in s.clients
    ensures KeepsClients(s, Grant(s, c, role, path, payload), c) && KeepsDisk(s, Grant(s, c, role, path, payload))
  {
    GrantShape(s, c, role, path, payload);
  }

  lemma AuthoriseMild(s: State, c: ClientId, user: User, valid: bool)
    requires c in s.clients
    ensures KeepsClients(s, Authorise(s, c, user, valid), c) && KeepsDisk(s, Authorise(s, c, user, valid))
  {
    hide Grant, Sweep, NameTaken;
    GrantMild(LoggedIn(ListedAuth(Swept(s)), c, user, s.next), c, WorkDir, s.root, Plain);
  }

  lemma DlMild(s: State, c: ClientId, name: string, offset: nat)
    requires Ready(s, c)
    ensures KeepsClients(s, Dl(s, c, name, offset), c) && KeepsDisk(s, Dl(s, c, name, offset))
  {
    hide Grant, Sweep;
    var t, p := s.disk.tree, Cwd(s, c) + [name];
    if IsFile(t, p) { GrantMild(s, c, Requested, p, Fetch(|TextOf(t[p])|, offset)); }
  }

  lemma DlsMild(s: State, c: ClientId)
    requires Ready(s, c)
    ensures KeepsClients(s, Dls(s, c), c) && KeepsDisk(s, Dls(s, c))
  {
    hide Release;
    ReleaseMild(s, c, Requested);
  }

  /** A transfer touches its client and the lock on the file. */
  lemma SentShape(s: State, c: ClientId, count: nat)
    requires c in s.clients && s.clients[c].mode == Download
    ensures var s', ctx := Transferred(s, c, count), s.clients[c];
      && s' == s.(locks := s'.locks, clients := s'.clients)
      && c in s'.clients && s'.clients == s.clients[c := s'.clients[c]]
      && s'.clients[c].auth == ctx.auth && s'.clients[c].tries == ctx.tries && s'.clients[c].failures == ctx.failures
      && (s'.clients[c].alive ==> ctx.alive)
      && (s'.clients[c].held == ctx.held || s'.clients[c].held == ctx.held - {Sending})
      && (s'.locks == s.locks ||
          (Sending in ctx.held && s'.locks == s.locks - {ctx.held[Sending]}) ||
          (Sending in ctx.held && ctx.held[Sending] in s.locks && ctx.held[Sending] in s'.locks &&
           s'.locks == s.locks[ctx.held[Sending] := s'.locks[ctx.held[Sending]]]))
  {
  }

  lemma SentMild(s: State, c: ClientId, count: nat)
    requires c in s.clients && s.clients[c].mode == Download
    ensures KeepsClients(s, Transferred(s, c, count), c) && KeepsDisk(s, Transferred(s, c, count))
  {
    hide Transferred;
    SentShape(s, c, count);
  }

  lemma SimpleMild(s: State, c: ClientId, path: Path)
    requires Ready(s, c)
    ensures KeepsClients(s, Cd(s, c, path), c) && KeepsDisk(s, Cd(s, c, path))
    ensures KeepsClients(s, Logout(s, c), c) && KeepsDisk(s, Logout(s, c))
  {
  }

  lemma TreeMild(s: State, e: Event)
    requires e.DoRm? || e.DoRename? || e.DoMv? || e.DoCp? || e.DoMkdir?
    ensures KeepsClients(s, Step(s, e), e.c) && Step(s, e) == SetDisk(s, Step(s, e).disk)
  {
    hide Ready, IsLocked, Relocated, Erased, Added, KeepsClients;
    SetDiskMild(s, e.c);
  }

  lemma SetDiskMild(s: State, c: ClientId)
    ensures KeepsClients(s, s, c) && forall d: Disk :: KeepsClients(s, SetDisk(s, d), c)
  {
  }

  lemma ReceiveMild(s: State, c: ClientId, t: Token)
    requires c in s.clients
    ensures KeepsClients(s, Receive(s, c, t), c)
  {
    hide Grant, Opened, Openable;
    GrantMild(s, c, Storing, t.path, Store(t.size, t.offset, t.stem, Openable(s.disk.tree, s.root, t.stem)));
  }

  lemma UlMild(s: State, c: ClientId, name: string, source: string, fits: bool)
    requires Ready(s, c)
    ensures KeepsClients(s, Ul(s, c, name, source, fits), c)
  {
    hide Receive, MayUpload;
    ReceiveMild(s, c, Token(Cwd(s, c) + [name], |source|, 0, UserOf(s, c)));
  }

  lemma UlRetryMild(s: State, c: ClientId, fits: bool)
    requires Ready(s, c)
    ensures KeepsClients(s, UlRetry(s, c, fits), c)
  {
    hide Receive, MayUpload, RecordOf;
    var user := UserOf(s, c);
    var record := RecordOf(s.disk, s.root, user);
    if record.Some? {
      var r := record.value;
      ReceiveMild(Forget(s, user), c, Token(r.path, r.size, r.offset, user));
    }
  }

  lemma DataMild(s: State, c: ClientId, bytes: string)
    requires Receives(s, c)
    ensures KeepsClients(s, Data(s, c, bytes), c)
  {
    hide Release, Committed;
    ReleaseMild(SetDisk(s, Committed(s.disk, s.root, FileOf(s, c), TokenOf(s, c), bytes).disk), c, Storing);
  }

  /** Steps that leave the file tree alone. */
  lemma StillMild(s: State, e: Event)
    requires e.DoAuth? || e.DoLogout? || e.DoCd? || e.DoDl? || e.DoDls? || e.DoSent? || e.Kill?
    ensures KeepsClients(s, Step(s, e), e.c) && KeepsDisk(s, Step(s, e))
  {
    hide Ready, Authorise, Logout, Cd, Dl, Dls, Transferred;
    match e
    case DoAuth(c, user, valid) => if c in s.clients { AuthoriseMild(s, c, user, valid); }
    case DoLogout(c) => if Ready(s, c) { SimpleMild(s, c, []); }
    case DoCd(c, path) => if Ready(s, c) { SimpleMild(s, c, path); }
    case DoDl(c, name, offset) => if Ready(s, c) { DlMild(s, c, name, offset); }
    case DoDls(c) => if Ready(s, c) { DlsMild(s, c); }
    case DoSent(c, count) => if c in s.clients && s.clients[c].mode == Download { SentMild(s, c, count); }
    case Kill(c) =>
  }

  lemma UploadMild(s: State, e: Event)
    requires e.DoUl? || e.DoUlRetry? || e.DoData?
    ensures KeepsClients(s, Step(s, e), e.c)
  {
    hide Ready, Receives, Ul, UlRetry, Data;
    match e
    case DoUl(c, name, source, fits) => if Ready(s, c) { UlMild(s, c, name, source, fits); }
    case DoUlRetry(c, fits) => if Ready(s, c) { UlRetryMild(s, c, fits); }
    case DoData(c, bytes) => if Receives(s, c) { DataMild(s, c, bytes); }
  }

  /** Steps other than connecting and disconnecting: the same clients. */
  lemma StepMild(s: State, e: Event)
    requires !e.Connect? && !e.Disconnect?
    ensures KeepsClients(s, Step(s, e), e.c)
  {
    hide Step;
    if e.DoRm? || e.DoRename? || e.DoMv? || e.DoCp? || e.DoMkdir? {
      TreeMild(s, e);
    } else if e.DoUl? || e.DoUlRetry? || e.DoData? {
      UploadMild(s, e);
    } else {
      StillMild(s, e);
    }
  }

  // ---------- downloads ----------

  lemma HandedLocks(s: State, c: ClientId)
    requires LockInv(s) && c in s.clients && Requested in s.clients[c].held && Sending !in s.clients[c].held
    ensures s.clients[c].held[Requested] in s.locks && LockInv(Handed(s, c))
  {
    assert HeldOk(s, c, Requested);
    var s' := Handed(s, c);
    forall i | i in s'.locks ensures LockOk(s', i) {
      assert LockOk(s, i);
    }
    forall d, r | d in s'.clients && r in s'.clients[d].held ensures HeldOk(s', d, r) {
      if d != c || r != Sending { assert HeldOk(s, d, r); }
    }
  }

  lemma HandedTree(s: State, c: ClientId)
    requires TreeInv(s) && LockInv(s) && c in s.clients && Requested in s.clients[c].held
    ensures s.clients[c].held[Requested] in s.locks && TreeInv(Handed(s, c))
  {
    assert HeldOk(s, c, Requested);
    var s' := Handed(s, c);
    forall i | i in s'.locks ensures Placed(s.root, s.disk.tree, s'.locks[i]) {
      assert Placed(s.root, s.disk.tree, s.locks[i]);
    }
  }

  lemma DlsCtx(s: State, c: ClientId)
    requires CtxInv(s) && LockInv(s) && Ready(s, c) && Requested in s.clients[c].held
    ensures CtxInv(Dls(s, c))
  {
    hide LockInv, Dls;
    DlsMild(s, c);
    assert CtxOk(s, c);
    DlsOwn(s, c);
    forall d | d in s.clients && d != c ensures CtxOk(Dls(s, c), d) {
      assert CtxOk(s, d);
      DlsOther(s, c, d);
      UntouchedOk(s, Dls(s, c), d);
    }
  }

  lemma DlsOther(s: State, c: ClientId, d: ClientId)
    requires LockInv(s) && Ready(s, c) && Requested in s.clients[c].held && d in s.clients && d != c
    ensures Untouched(s, Dls(s, c), d)
  {
    hide LockInv;
    HeldOf(s, c, Requested);
    if Storing in s.clients[d].held { HeldOf(s, d, Storing); }
  }

  lemma DlsOwn(s: State, c: ClientId)
    requires Ready(s, c) && CtxOk(s, c) && c in Dls(s, c).clients
    ensures CtxOk(Dls(s, c), c)
  {
  }

  lemma DlsKeeps(s: State, c: ClientId)
    requires Inv(s) && Ready(s, c)
    ensures Inv(Dls(s, c))
  {
    hide TreeInv, LockInv, AuthInv, CtxInv;
    if Requested in s.clients[c].held {
      DlsRole(s, c);
      DlsCtx(s, c);
      HandedLocks(s, c);
      HandedTree(s, c);
      ReleaseKeeps(s, c, Requested);
      ReleaseTree(s, c, Requested);
      var freed := Release(s, c, Requested);
      if Dls(s, c) != Handed(s, c) {
        SameLocks(freed, Dls(s, c));
        SameTree(freed, Dls(s, c));
      }
      SameAuths(s, Dls(s, c));
    }
  }

  lemma DlsRole(s: State, c: ClientId)
    requires CtxInv(s) && LockInv(s) && Ready(s, c) && Requested in s.clients[c].held
    ensures Sending !in s.clients[c].held && s.clients[c].held[Requested] in s.locks
  {
    assert CtxOk(s, c) && HeldOk(s, c, Requested);
  }

  lemma SentCtx(s: State, c: ClientId, count: nat)
    requires CtxInv(s) && LockInv(s) && c in s.clients && s.clients[c].mode == Download
    ensures CtxInv(Transferred(s, c, count))
  {
    hide LockInv;
    var s' := Transferred(s, c, count);
    assert CtxOk(s, c);
    if Sending in s.clients[c].held { HeldOf(s, c, Sending); }
    SentOwn(s, c, count);
    forall d | d in s'.clients && d != c ensures CtxOk(s', d) {
      assert CtxOk(s, d);
      SentOther(s, c, count, d);
      UntouchedOk(s, s', d);
    }
  }

  lemma SentOwn(s: State, c: ClientId, count: nat)
    requires c in s.clients && s.clients[c].mode == Download && CtxOk(s, c)
    requires Sending in s.clients[c].held ==> s.clients[c].held[Sending] in s.locks
    ensures c in Transferred(s, c, count).clients && CtxOk(Transferred(s, c, count), c)
  {
  }

  lemma SentOther(s: State, c: ClientId, count: nat, d: ClientId)
    requires LockInv(s) && c in s.clients && s.clients[c].mode == Download && d in s.clients && d != c
    ensures Untouched(s, Transferred(s, c, count), d)
  {
    hide LockInv, Transferred;
    SentShape(s, c, count);
    if Sending in s.clients[c].held { HeldOf(s, c, Sending); }
    if Storing in s.clients[d].held { HeldOf(s, d, Storing); }
  }

  /** Another payload for a lock that stays in place. */
  lemma PayloadTree(s: State, id: TokenId, lock: Lock)
    requires TreeInv(s) && id in s.locks && Placed(s.root, s.disk.tree, lock)
    ensures TreeInv(s.(locks := s.locks[id := lock]))
  {
    hide DiskOk, Placed;
  }

  lemma EditStep(s: State, s': State, id: TokenId, lock: Lock)
    requires LockInv(s) && TreeInv(s) && id in s.locks && Placed(s.root, s.disk.tree, lock)
    requires lock.owner == s.locks[id].owner && lock.role == s.locks[id].role
    requires s' == s.(locks := s.locks[id := lock], clients := s'.clients)
    requires s'.clients.Keys == s.clients.Keys && forall d <- s.clients :: s'.clients[d].held == s.clients[d].held
    ensures LockInv(s') && TreeInv(s')
  {
    hide LockInv, TreeInv, Placed;
    var s1 := s.(locks := s.locks[id := lock]);
    EditKeeps(s, id, lock);
    PayloadTree(s, id, lock);
    SameLocks(s1, s');
    SameTree(s1, s');
  }

  lemma FreeStep(s: State, s': State, c: ClientId, role: Role)
    requires LockInv(s) && TreeInv(s) && c in s.clients
    requires var freed := Release(s, c, role);
      && s' == freed.(clients := s'.clients)
      && s'.clients.Keys == freed.clients.Keys && forall d <- freed.clients :: s'.clients[d].held == freed.clients[d].held
    ensures LockInv(s') && TreeInv(s')
  {
    hide LockInv, TreeInv, Release;
    ReleaseKeeps(s, c, role);
    ReleaseTree(s, c, role);
    SameLocks(Release(s, c, role), s');
    SameTree(Release(s, c, role), s');
  }

  lemma SendingPlaced(s: State, c: ClientId)
    requires LockInv(s) && TreeInv(s) && c in s.clients && Sending in s.clients[c].held
    ensures HeldOk(s, c, Sending) && Placed(s.root, s.disk.tree, s.locks[s.clients[c].held[Sending]])
  {
    hide DiskOk, LockInv;
    HeldOf(s, c, Sending);
  }

  lemma SentLocks(s: State, c: ClientId, count: nat)
    requires LockInv(s) && TreeInv(s) && c in s.clients && s.clients[c].mode == Download
    ensures LockInv(Transferred(s, c, count)) && TreeInv(Transferred(s, c, count))
  {
    hide LockInv, TreeInv, Placed;
    var s', ctx := Transferred(s, c, count), s.clients[c];
    if Sending !in ctx.held {
      SameLocks(s, s');
      SameTree(s, s');
    } else {
      SendingPlaced(s, c);
      SentResult(s, c, count);
      hide Transferred;
      if Sending in s'.clients[c].held {
        EditStep(s, s', ctx.held[Sending], s'.locks[ctx.held[Sending]]);
      } else {
        FreeStep(s, s', c, Sending);
      }
    }
  }

  /** Either the lock is edited or it is freed. */
  lemma SentResult(s: State, c: ClientId, count: nat)
    requires c in s.clients && s.clients[c].mode == Download && Sending in s.clients[c].held
    requires HeldOk(s, c, Sending) && Placed(s.root, s.disk.tree, s.locks[s.clients[c].held[Sending]])
    ensures var s', id := Transferred(s, c, count), s.clients[c].held[Sending];
      && c in s'.clients && s'.clients.Keys == s.clients.Keys
      && if Sending in s'.clients[c].held then
           && id in s'.locks && Placed(s.root, s.disk.tree, s'.locks[id])
           && s'.locks[id] == s.locks[id].(payload := s'.locks[id].payload)
           && s' == s.(locks := s.locks[id := s'.locks[id]], clients := s'.clients)
           && forall d <- s.clients :: s'.clients[d].held == s.clients[d].held
         else
           && s' == Release(s, c, Sending).(clients := s'.clients)
           && s'.clients.Keys == Release(s, c, Sending).clients.Keys
           && forall d <- Release(s, c, Sending).clients :: s'.clients[d].held == Release(s, c, Sending).clients[d].held
  {
    SentShape(s, c, count);
    hide IsFile, Ordinary, Inside;
  }

  lemma SentKeeps(s: State, c: ClientId, count: nat)
    requires Inv(s) && c in s.clients && s.clients[c].mode == Download
    ensures Inv(Transferred(s, c, count))
  {
    hide TreeInv, LockInv, AuthInv, CtxInv;
    SentLocks(s, c, count);
    SameAuths(s, Transferred(s, c, count));
    SentCtx(s, c, count);
  }

  // ---------- logins ----------

  lemma AuthListStep(s: State, s': State)
    requires Inv(s) && AuthInv(s')
    requires s' == s.(authList := s'.authList, next := s'.next) && s'.next >= s.next
    ensures Inv(s')
  {
    hide TreeInv, LockInv, AuthInv, CtxInv;
    SameLocks(s, s');
    SameTree(s, s');
    AllUntouched(s, s');
  }

  lemma AuthListAuths(s: State, s': State)
    requires AuthInv(s) && (s' == Swept(s) || s' == ListedAuth(s))
    ensures AuthInv(s')
  {
    forall id | id in s'.auths ensures AuthOk(s', id) {
      assert AuthOk(s, id);
    }
  }

  lemma LoginAuths(s: State, c: ClientId, user: User, id: TokenId)
    requires AuthInv(s) && c in s.clients && s.clients[c].auth.None?
    requires id in s.authList && id < s.next && id !in s.auths && UserName(user)
    requires forall i <- s.auths :: s.auths[i].user != user
    ensures AuthInv(LoggedIn(s, c, user, id))
  {
    var s' := LoggedIn(s, c, user, id);
    forall i | i in s'.auths ensures AuthOk(s', i) {
      if i != id { assert AuthOk(s, i); }
    }
  }

  lemma LoginCtx(s: State, c: ClientId, user: User, id: TokenId)
    requires CtxInv(s) && LockInv(s) && c in s.clients && s.clients[c].auth.None? && s.clients[c].mode == Command
    requires id !in s.auths
    ensures CtxInv(Grant(LoggedIn(s, c, user, id), c, WorkDir, s.root, Plain))
  {
    hide LockInv, Grant;
    var s1 := LoggedIn(s, c, user, id);
    var s' := Grant(s1, c, WorkDir, s.root, Plain);
    SameLocks(s, s1);
    GrantShape(s1, c, WorkDir, s.root, Plain);
    forall d | d in s'.clients ensures CtxOk(s', d) {
      assert CtxOk(s, d);
      if d != c {
        if Storing in s.clients[d].held { GrantSpares(s1, c, WorkDir, s.root, Plain, d, Storing); }
        UntouchedOk(s, s', d);
      }
    }
  }

  lemma RootPlaced(s: State, c: ClientId)
    requires TreeInv(s)
    ensures Placed(s.root, s.disk.tree, Lock(s.root, c, WorkDir, Plain))
  {
  }

  lemma LoginStep(s: State, c: ClientId, user: User, id: TokenId)
    requires Inv(s) && c in s.clients && s.clients[c].auth.None? && s.clients[c].mode == Command
    requires id in s.authList && id < s.next && id !in s.auths && UserName(user)
    requires forall i <- s.auths :: s.auths[i].user != user
    ensures Inv(Grant(LoggedIn(s, c, user, id), c, WorkDir, s.root, Plain))
  {
    hide TreeInv, LockInv, AuthInv, CtxInv;
    var s1 := LoggedIn(s, c, user, id);
    SameLocks(s, s1);
    SameTree(s, s1);
    LoginAuths(s, c, user, id);
    RootPlaced(s, c);
    GrantKeeps(s1, c, WorkDir, s.root, Plain);
    GrantTree(s1, c, WorkDir, s.root, Plain);
    GrantShape(s1, c, WorkDir, s.root, Plain);
    SameAuths(s1, Grant(s1, c, WorkDir, s.root, Plain));
    LoginCtx(s, c, user, id);
  }

  /** A name that no listed token has, no live token has. */
  lemma NotLoggedIn(s: State, user: User)
    requires AuthInv(s) && !NameTaken(Swept(s), user)
    ensures forall i <- s.auths :: s.auths[i].user != user && i != s.next
  {
    forall i | i in s.auths ensures s.auths[i].user != user && i != s.next {
      assert AuthOk(s, i);
    }
  }

  lemma AuthoriseKeeps(s: State, c: ClientId, user: User, valid: bool)
    requires Inv(s) && c in s.clients && s.clients[c].mode == Command && (valid ==> UserName(user))
    ensures Inv(Authorise(s, c, user, valid))
  {
    hide TreeInv, LockInv, AuthInv, CtxInv;
    var s1, ctx := Swept(s), s.clients[c];
    AuthListAuths(s, s1);
    AuthListStep(s, s1);
    if !valid {
      CtxStep(s1, c, Failed(ctx));
    } else if !NameTaken(s1, user) {
      NotLoggedIn(s, user);
      AuthListAuths(s1, ListedAuth(s1));
      AuthListStep(s1, ListedAuth(s1));
      if ctx.auth.None? { LoginStep(ListedAuth(s1), c, user, s1.next); }
    }
  }

  lemma LogoutAuths(s: State, c: ClientId)
    requires AuthInv(s) && Ready(s, c)
    ensures AuthInv(Logout(s, c))
  {
    var s' := Logout(s, c);
    forall i | i in s'.auths ensures AuthOk(s', i) {
      assert AuthOk(s, i);
    }
  }

  lemma LogoutCtx(s: State, c: ClientId)
    requires CtxInv(s) && AuthInv(s) && Ready(s, c)
    ensures CtxInv(Logout(s, c))
  {
    var s' := Logout(s, c);
    forall d | d in s'.clients ensures CtxOk(s', d) {
      assert CtxOk(s, d);
      if d != c { UntouchedOk(s, s', d); }
    }
  }

  lemma LogoutKeeps(s: State, c: ClientId)
    requires Inv(s) && Ready(s, c)
    ensures Inv(Logout(s, c))
  {
    hide TreeInv, LockInv, AuthInv, CtxInv;
    SameLocks(s, Logout(s, c));
    SameTree(s, Logout(s, c));
    LogoutAuths(s, c);
    LogoutCtx(s, c);
  }

  // ---------- uploads ----------

  ghost function StemOf(s: State, d: ClientId): User
    requires d in s.clients && Storing in s.clients[d].held && UploadOk(s, d)
  {
    s.locks[s.clients[d].held[Storing]].payload.stem
  }

  /** Two clients are never logged in under the same name. */
  lemma OneClientPerUser(s: State, c: ClientId, d: ClientId)
    requires AuthInv(s) && c in s.clients && d in s.clients && c != d
    requires s.clients[c].auth.Some? && s.clients[d].auth.Some?
    ensures s.clients[c].auth.value in s.auths && s.clients[d].auth.value in s.auths
    ensures s.auths[s.clients[c].auth.value].user != s.auths[s.clients[d].auth.value].user
  {
    var i, j := s.clients[c].auth.value, s.clients[d].auth.value;
    assert s.auths[i].owner == c && s.auths[j].owner == d;
  }

  /** The state in which a client named `user` may act on that user's temporary files. */
  lemma OthersStems(s: State, c: ClientId, d: ClientId)
    requires AuthInv(s) && CtxInv(s) && c in s.clients && d in s.clients && c != d
    requires s.clients[c].auth.Some? && Storing in s.clients[d].held
    ensures UploadOk(s, d) && s.clients[c].auth.value in s.auths
    ensures StemOf(s, d) != s.auths[s.clients[c].auth.value].user
  {
    assert CtxOk(s, d);
    OneClientPerUser(s, c, d);
  }

  lemma ReceiveCtx(s: State, c: ClientId, t: Token)
    requires CtxInv(s) && LockInv(s) && Ready(s, c) && t.stem == UserOf(s, c)
    ensures CtxInv(Receive(s, c, t))
  {
    hide LockInv, Grant, Opened, Openable;
    var payload := Store(t.size, t.offset, t.stem, Openable(s.disk.tree, s.root, t.stem));
    var s' := Receive(s, c, t);
    GrantShape(s, c, Storing, t.path, payload);
    assert CtxOk(s, c);
    forall d | d in s'.clients ensures CtxOk(s', d) {
      if d != c {
        assert CtxOk(s, d);
        if Storing in s.clients[d].held { GrantSpares(s, c, Storing, t.path, payload, d, Storing); }
        UntouchedOk(s, s', d);
      }
    }
  }

  lemma ReceiveTree(s: State, c: ClientId, t: Token)
    requires TreeInv(s) && c in s.clients && UserName(t.stem) && ValidToken(t)
    requires Ordinary(t.path) && !Inside(s.root, t.path) && Parent(t.path) in s.disk.tree
    ensures TreeInv(Receive(s, c, t))
  {
    var begun := Openable(s.disk.tree, s.root, t.stem);
    var payload := Store(t.size, t.offset, t.stem, begun);
    GrantTree(s, c, Storing, t.path, payload);
    GrantShape(s, c, Storing, t.path, payload);
    if begun { OpenedOk(s.root, s.disk, s.next, t); }
    hide TreeInv, Grant, DiskOk, Opened, Openable, KeepsKinds;
    var s1, s' := Grant(s, c, Storing, t.path, payload), Receive(s, c, t);
    if begun { KindsKeep(s1, s'.disk); }
    SameTree(SetDisk(s1, s'.disk), s');
  }

  lemma ReceiveKeeps(s: State, c: ClientId, t: Token)
    requires Inv(s) && Ready(s, c) && t.stem == UserOf(s, c) && ValidToken(t)
    requires Ordinary(t.path) && !Inside(s.root, t.path) && Parent(t.path) in s.disk.tree
    ensures Inv(Receive(s, c, t))
  {
    hide TreeInv, LockInv, AuthInv, CtxInv, Grant, Opened, Openable;
    var payload := Store(t.size, t.offset, t.stem, Openable(s.disk.tree, s.root, t.stem));
    var s1, s' := Grant(s, c, Storing, t.path, payload), Receive(s, c, t);
    UserIsNamed(s, c);
    GrantKeeps(s, c, Storing, t.path, payload);
    GrantShape(s, c, Storing, t.path, payload);
    SameLocks(s1, s');
    ReceiveTree(s, c, t);
    SameAuths(s, s');
    ReceiveCtx(s, c, t);
  }

  lemma UserIsNamed(s: State, c: ClientId)
    requires AuthInv(s) && Ready(s, c)
    ensures UserName(UserOf(s, c))
  {
    assert AuthOk(s, s.clients[c].auth.value);
  }

  lemma IntentStep(s: State, intent: map<User, Intent>)
    requires Inv(s)
    ensures Inv(s.(intent := intent))
  {
    hide TreeInv, LockInv, AuthInv, CtxInv;
    var s' := s.(intent := intent);
    SameLocks(s, s');
    SameTree(s, s');
    SameAuths(s, s');
    AllUntouched(s, s');
  }

  lemma UlKeeps(s: State, c: ClientId, name: string, source: string, fits: bool)
    requires Inv(s) && Ready(s, c) && Component(name)
    ensures Inv(Ul(s, c, name, source, fits))
  {
    hide Inv, Receive;
    var path, user := Cwd(s, c) + [name], UserOf(s, c);
    ReadyFacts(s, c);
    Below(Cwd(s, c), name);
    if MayUpload(s, path, fits) {
      CwdOutside(s, c, name);
      ReceiveKeeps(s, c, Token(path, |source|, 0, user));
      IntentStep(Receive(s, c, Token(path, |source|, 0, user)), s.intent[user := Intent(path, source)]);
    }
  }

  /** No name in a current directory is in the configuration directory. */
  lemma CwdOutside(s: State, c: ClientId, name: string)
    requires Inv(s) && Ready(s, c)
    ensures !Inside(s.root, Cwd(s, c) + [name])
  {
    hide Inv;
    ReadyFacts(s, c);
    var p := Cwd(s, c) + [name];
    assert p[..|p| - 1] == Cwd(s, c);
  }

  lemma ForgetKeeps(s: State, user: User)
    requires Inv(s)
    ensures Inv(Forget(s, user))
  {
    ForgottenOk(s.root, s.disk, user);
    hide LockInv, AuthInv, CtxInv, DiskOk, Forgotten;
    KindsKeep(s, Forgotten(s.disk, s.root, user));
    hide TreeInv;
    DiskStep(s, Forgotten(s.disk, s.root, user));
  }

  lemma RecordIsOk(s: State, user: User)
    requires TreeInv(s)
    ensures var r := RecordOf(s.disk, s.root, user); r.Some? ==> RecordOk(s.root, r.value)
  {
    var b := BackupPath(s.root, user);
    assert b in s.disk.tree ==> NodeOk(s.root, s.disk.tree[b]);
  }

  lemma UlRetryKeeps(s: State, c: ClientId, fits: bool)
    requires Inv(s) && Ready(s, c)
    ensures Inv(UlRetry(s, c, fits))
  {
    hide Inv, Receive, RecordOf, Forgotten, IsHeld;
    var user := UserOf(s, c);
    var record := RecordOf(s.disk, s.root, user);
    if record.Some? {
      InvParts(s);
      RecordIsOk(s, user);
      ForgetKeeps(s, user);
      var r, s1 := record.value, Forget(s, user);
      if MayUpload(s1, r.path, fits) { ReceiveKeeps(s1, c, Token(r.path, r.size, r.offset, user)); }
    }
  }

  /** Two uploads have different tokens and different temporary files. */
  lemma UploadsApart(s: State, c: ClientId, d: ClientId)
    requires CtxInv(s) && LockInv(s) && AuthInv(s) && c in s.clients && d in s.clients && d != c
    requires Storing in s.clients[c].held && Storing in s.clients[d].held
    ensures UploadOk(s, c) && UploadOk(s, d)
    ensures StemOf(s, c) != StemOf(s, d) && s.clients[c].held[Storing] != s.clients[d].held[Storing]
  {
    assert CtxOk(s, c) && HeldOk(s, c, Storing) && HeldOk(s, d, Storing);
    OthersStems(s, c, d);
  }

  lemma DataOther(s: State, c: ClientId, bytes: string, d: ClientId)
    requires LockInv(s) && Receives(s, c) && d in s.clients && d != c
    ensures Untouched(s, Data(s, c, bytes), d)
  {
    hide LockInv, Committed;
    HeldOf(s, c, Storing);
    if Storing in s.clients[d].held { HeldOf(s, d, Storing); }
  }

  lemma DataOwn(s: State, c: ClientId, bytes: string)
    requires Receives(s, c) && CtxOk(s, c)
    ensures CtxOk(Data(s, c, bytes), c)
  {
    CommittedToken(s.disk, s.root, FileOf(s, c), TokenOf(s, c), bytes);
    hide Committed;
  }

  lemma CommittedToken(d: Disk, root: Path, h: Handle, t: Token, bytes: string)
    requires ValidToken(t)
    ensures var r := Committed(d, root, h, t, bytes);
      r.token.Some? ==> r.token.value == t.(offset := r.token.value.offset) && t.offset <= r.token.value.offset <= t.size
  {
    hide Written, Replaced, Renamable;
  }

  lemma DataCtx(s: State, c: ClientId, bytes: string)
    requires CtxInv(s) && LockInv(s) && Receives(s, c)
    ensures CtxInv(Data(s, c, bytes))
  {
    hide LockInv, Data;
    DataMild(s, c, bytes);
    assert CtxOk(s, c);
    DataOwn(s, c, bytes);
    forall d | d in s.clients && d != c ensures CtxOk(Data(s, c, bytes), d) {
      assert CtxOk(s, d);
      DataOther(s, c, bytes, d);
      UntouchedOk(s, Data(s, c, bytes), d);
    }
  }

  lemma DataLocks(s: State, c: ClientId, bytes: string)
    requires LockInv(s) && Receives(s, c)
    ensures LockInv(Data(s, c, bytes))
  {
    hide LockInv, Committed;
    var r := Committed(s.disk, s.root, FileOf(s, c), TokenOf(s, c), bytes);
    var s1, s' := SetDisk(s, r.disk), Data(s, c, bytes);
    SameLocks(s, s1);
    if r.token.None? {
      ReleaseKeeps(s1, c, Storing);
      SameLocks(Release(s1, c, Storing), s');
    } else {
      var id := s.clients[c].held[Storing];
      EditKeeps(s1, id, s'.locks[id]);
      SameLocks(s1.(locks := s1.locks[id := s'.locks[id]]), s');
    }
  }

  lemma TokenPlaced(s: State, c: ClientId)
    requires TreeInv(s) && LockInv(s) && Receives(s, c)
    ensures Ordinary(TokenOf(s, c).path) && !Inside(s.root, TokenOf(s, c).path)
    ensures Placed(s.root, s.disk.tree, s.locks[FileOf(s, c)]) && s.locks[FileOf(s, c)].role == Storing
  {
    hide LockInv, DiskOk;
    HeldOf(s, c, Storing);
    assert Placed(s.root, s.disk.tree, s.locks[FileOf(s, c)]);
  }

  lemma DataTree(s: State, c: ClientId, bytes: string)
    requires TreeInv(s) && LockInv(s) && Receives(s, c)
    ensures TreeInv(Data(s, c, bytes))
  {
    var t, id := TokenOf(s, c), FileOf(s, c);
    var r := Committed(s.disk, s.root, id, t, bytes);
    TokenPlaced(s, c);
    CommittedOk(s.root, s.disk, id, t, bytes);
    CommittedToken(s.disk, s.root, id, t, bytes);
    var s1, s' := SetDisk(s, r.disk), Data(s, c, bytes);
    hide Committed, DiskOk, KeepsKinds, LockInv;
    KindsKeep(s, r.disk);
    KindsPlaced(s.root, s.disk.tree, r.disk.tree, s.locks[id]);
    hide TreeInv;
    if r.token.None? {
      ReleaseTree(s1, c, Storing);
      SameTree(Release(s1, c, Storing), s');
    } else {
      PayloadTree(s1, id, s'.locks[id]);
      SameTree(s1.(locks := s1.locks[id := s'.locks[id]]), s');
    }
  }

  lemma DataKeeps(s: State, c: ClientId, bytes: string)
    requires Inv(s) && Receives(s, c)
    ensures Inv(Data(s, c, bytes))
  {
    hide TreeInv, LockInv, AuthInv, CtxInv, Committed;
    DataTree(s, c, bytes);
    DataLocks(s, c, bytes);
    SameAuths(s, Data(s, c, bytes));
    DataCtx(s, c, bytes);
  }

  // ---------- disconnection ----------

  function ClosedDisk(s: State, c: ClientId): Disk
    requires c in s.clients
  {
    if Receives(s, c) then Closed(BackedUp(s.disk, s.root, TokenOf(s, c)), FileOf(s, c)) else s.disk
  }

  lemma ClosedDiskOk(s: State, c: ClientId)
    requires Inv(s) && c in s.clients
    ensures DiskOk(s.root, ClosedDisk(s, c)) && KeepsKinds(s.root, s.disk.tree, ClosedDisk(s, c).tree)
  {
    if Receives(s, c) {
      var t := TokenOf(s, c);
      TokenPlaced(s, c);
      assert CtxOk(s, c) && AuthOk(s, s.clients[c].auth.value);
      BackedUpOk(s.root, s.disk, t);
    }
  }

  lemma CloseTree(s: State, c: ClientId)
    requires Inv(s) && c in s.clients
    ensures TreeInv(Close(s, c))
  {
    ClosedDiskOk(s, c);
    var d := ClosedDisk(s, c);
    hide LockInv, AuthInv, CtxInv, DiskOk, KeepsKinds, ClosedDisk;
    KindsKeep(s, d);
    hide Placed;
    var s1, s' := SetDisk(s, d), Close(s, c);
    forall id | id in s'.locks ensures Placed(s.root, d.tree, s'.locks[id]) {
      assert Placed(s1.root, s1.disk.tree, s1.locks[id]);
    }
    CloseDisk(s, c);
  }

  lemma CloseDisk(s: State, c: ClientId)
    requires c in s.clients
    ensures Close(s, c).disk == ClosedDisk(s, c) && Close(s, c).root == s.root && Close(s, c).intent == s.intent
  {
  }

  lemma CloseLocks(s: State, c: ClientId)
    requires LockInv(s) && c in s.clients
    ensures LockInv(Close(s, c))
  {
    var s' := Close(s, c);
    forall id | id in s'.locks ensures LockOk(s', id) {
      assert LockOk(s, id);
      assert id in s.clients[s.locks[id].owner].held.Values;
    }
    forall d, r | d in s'.clients && r in s'.clients[d].held ensures HeldOk(s', d, r) {
      assert HeldOk(s, d, r);
      assert forall q <- s.clients[c].held :: HeldOk(s, c, q);
    }
  }

  lemma CloseAuths(s: State, c: ClientId)
    requires AuthInv(s) && c in s.clients
    ensures AuthInv(Close(s, c))
  {
    var s' := Close(s, c);
    forall id | id in s'.auths ensures AuthOk(s', id) {
      assert AuthOk(s, id);
    }
  }

  lemma CloseSpares(s: State, c: ClientId, d: ClientId)
    requires LockInv(s) && AuthInv(s) && c in s.clients && d in s.clients && c != d
    ensures Untouched(s, Close(s, c), d)
  {
    if Storing in s.clients[d].held {
      assert HeldOk(s, d, Storing);
      assert forall q <- s.clients[c].held :: HeldOk(s, c, q);
    }
  }

  lemma CloseCtx(s: State, c: ClientId)
    requires Inv(s) && c in s.clients
    ensures CtxInv(Close(s, c))
  {
    hide TreeInv, LockInv, AuthInv;
    var s' := Close(s, c);
    forall d | d in s'.clients ensures CtxOk(s', d) {
      assert CtxOk(s, d);
      CloseSpares(s, c, d);
      UntouchedOk(s, s', d);
    }
  }

  lemma CloseKeeps(s: State, c: ClientId)
    requires Inv(s) && c in s.clients
    ensures Inv(Close(s, c))
  {
    hide TreeInv, LockInv, AuthInv, CtxInv;
    CloseLocks(s, c);
    CloseTree(s, c);
    CloseAuths(s, c);
    CloseCtx(s, c);
  }

  // ---------- every run ----------

  lemma StepKeeps(s: State, e: Event)
    requires Inv(s)
    ensures Inv(Step(s, e))
  {
    hide Inv, Ready, Receives;
    match e
    case Connect(c) => if c !in s.clients { ConnectKeeps(s, c); }
    case Disconnect(c) => if c in s.clients { CloseKeeps(s, c); }
    case Kill(c) => if c in s.clients { CtxStep(s, c, s.clients[c].(alive := false)); }
    case DoAuth(c, user, valid) =>
      if c in s.clients && s.clients[c].mode == Command && (valid ==> UserName(user)) { AuthoriseKeeps(s, c, user, valid); }
    case DoLogout(c) => if Ready(s, c) { LogoutKeeps(s, c); }
    case DoCd(c, path) => if Ready(s, c) { CdKeeps(s, c, path); }
    case DoMkdir(c, name) => if Ready(s, c) && Component(name) { MkdirKeeps(s, c, name); }
    case DoRm(c, name) => if Ready(s, c) && Component(name) { RmKeeps(s, c, name); }
    case DoRename(c, oname, nname) =>
      if Ready(s, c) && Component(oname) && Component(nname) { RenameKeeps(s, c, oname, nname); }
    case DoMv(c, name, dir) => if Ready(s, c) && Component(name) { MvKeeps(s, c, name, dir); }
    case DoCp(c, name, dir) => if Ready(s, c) && Component(name) { CpKeeps(s, c, name, dir); }
    case DoDl(c, name, offset) => if Ready(s, c) && Component(name) { DlKeeps(s, c, name, offset); }
    case DoDls(c) => if Ready(s, c) { DlsKeeps(s, c); }
    case DoSent(c, count) => if c in s.clients && s.clients[c].mode == Download { SentKeeps(s, c, count); }
    case DoUl(c, name, source, fits) =>
      if Ready(s, c) && Component(name) { UlKeeps(s, c, name, source, fits); }
    case DoUlRetry(c, fits) => if Ready(s, c) { UlRetryKeeps(s, c, fits); }
    case DoData(c, bytes) => if Receives(s, c) { DataKeeps(s, c, bytes); }
  }

  /** In every run of any number of clients: the tree is well formed, every live lock is
      listed, owned and in place, every live login is listed and unique, and every living
      client has failed fewer than three times. */
  lemma {:induction false} RunKeeps(s: State, events: seq<Event>)
    requires Inv(s)
    ensures Inv(Run(s, events))
    decreases |events|
  {
    hide Inv;
    if events != [] {
      StepKeeps(s, events[0]);
      RunKeeps(Step(s, events[0]), events[1..]);
    }
  }
}
