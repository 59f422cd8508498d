/** What a step leaves alone of what the clients hold. */
module ServerFrames {
  import opened Paths
  import opened Disks
  import opened Uploads
  import opened ProtocolMode
  import opened ServerState
  import opened ServerSafety
  import opened ServerRuns

  /** What c holds in a role now, it held before, and the lock is the same. */
  ghost predicate SameHeld(s: State, s': State, c: ClientId, role: Role)
    requires c in s'.clients
  {
    role in s'.clients[c].held ==>
      && c in s.clients && role in s.clients[c].held
      && s.clients[c].held[role] == s'.clients[c].held[role]
      && SameLock(s, s', s'.clients[c].held[role])
  }

  /** The events by which c changes what it holds in a role. */
  predicate Acts(e: Event, c: ClientId, role: Role) {
    && e.c == c
    && match role
       case WorkDir => e.DoAuth? || e.DoCd?
       case Requested => e.DoDl?
       case Sending => e.DoDls? || e.DoSent?
       case Storing => e.DoUl? || e.DoUlRetry? || e.DoData?
  }

  lemma SelfHeld(s: State, c: ClientId, role: Role)
    requires c in s.clients
    ensures SameHeld(s, s, c, role)
  {
  }

  /** A step that changes neither locks nor what clients hold. */
  lemma CalmHeld(s: State, s': State, c: ClientId, role: Role)
    requires c in s'.clients && s'.locks == s.locks
    requires s'.clients[c].held == if c in s.clients then s.clients[c].held else map[]
    ensures SameHeld(s, s', c, role)
  {
  }

  lemma GrantHeld(s: State, d: ClientId, taken: Role, path: Path, payload: Payload, c: ClientId, role: Role)
    requires LockInv(s) && d in s.clients && c in s.clients && (c != d || role != taken)
    ensures c in Grant(s, d, taken, path, payload).clients && SameHeld(s, Grant(s, d, taken, path, payload), c, role)
  {
    hide LockInv, Grant;
    GrantShape(s, d, taken, path, payload);
    if role in s.clients[c].held { GrantSpares(s, d, taken, path, payload, c, role); }
  }

  lemma ReleaseHeldBy(s: State, d: ClientId, freed: Role, c: ClientId, role: Role)
    requires LockInv(s) && d in s.clients && c in s.clients
    ensures c in Release(s, d, freed).clients && SameHeld(s, Release(s, d, freed), c, role)
  {
    hide LockInv;
    if role in Release(s, d, freed).clients[c].held { ReleaseSpares(s, d, freed, c, role); }
  }

  /** Another payload or path for a lock. */
  lemma EditHeld(s: State, s': State, d: ClientId, edited: Role, c: ClientId, role: Role)
    requires LockInv(s) && d in s.clients && edited in s.clients[d].held && (c != d || role != edited)
    requires c in s.clients && c in s'.clients && s'.clients[c].held == s.clients[c].held
    requires s.clients[d].held[edited] in s.locks && s'.locks.Keys == s.locks.Keys
    requires forall id <- s.locks :: id != s.clients[d].held[edited] ==> s'.locks[id] == s.locks[id]
    ensures SameHeld(s, s', c, role)
  {
    hide LockInv;
    HeldOf(s, d, edited);
    if role in s.clients[c].held { HeldOf(s, c, role); }
  }

  lemma HeldChain(s: State, s1: State, s2: State, c: ClientId, role: Role)
    requires c in s1.clients && c in s2.clients && SameHeld(s, s1, c, role) && SameHeld(s1, s2, c, role)
    requires LockInv(s)
    ensures SameHeld(s, s2, c, role)
  {
    hide LockInv;
    if role in s2.clients[c].held { HeldOf(s, c, role); }
  }

  lemma AuthHeld(s: State, d: ClientId, user: User, valid: bool, c: ClientId, role: Role)
    requires LockInv(s) && d in s.clients && c in s.clients && (c != d || role != WorkDir)
    ensures c in Authorise(s, d, user, valid).clients && SameHeld(s, Authorise(s, d, user, valid), c, role)
  {
    hide Grant, LockInv, SameHeld, NameTaken, Sweep;
    var s' := Authorise(s, d, user, valid);
    if valid && !NameTaken(Swept(s), user) && s.clients[d].auth.None? {
      var s1 := LoggedIn(ListedAuth(Swept(s)), d, user, s.next);
      SameLocks(s, s1);
      CalmHeld(s, s1, c, role);
      GrantHeld(s1, d, WorkDir, s.root, Plain, c, role);
      HeldChain(s, s1, s', c, role);
    } else {
      CalmHeld(s, s', c, role);
    }
  }

  lemma CdHeld(s: State, d: ClientId, path: Path, c: ClientId, role: Role)
    requires LockInv(s) && Ready(s, d) && c in s.clients && (c != d || role != WorkDir)
    ensures SameHeld(s, Cd(s, d, path), c, role)
  {
    hide LockInv, SameHeld;
    SelfHeld(s, c, role);
    EditHeld(s, Cd(s, d, path), d, WorkDir, c, role);
  }

  lemma DlHeld(s: State, d: ClientId, name: string, offset: nat, c: ClientId, role: Role)
    requires LockInv(s) && Ready(s, d) && c in s.clients && (c != d || role != Requested)
    ensures c in Dl(s, d, name, offset).clients && SameHeld(s, Dl(s, d, name, offset), c, role)
  {
    hide Grant, LockInv, SameHeld, Sweep;
    var t, p := s.disk.tree, Cwd(s, d) + [name];
    SelfHeld(s, c, role);
    CalmHeld(s, Listed(s), c, role);
    if IsFile(t, p) { GrantHeld(s, d, Requested, p, Fetch(|TextOf(t[p])|, offset), c, role); }
  }

  lemma HandedHeld(s: State, d: ClientId, c: ClientId, role: Role)
    requires LockInv(s) && d in s.clients && Requested in s.clients[d].held && c in s.clients
    requires s.clients[d].held[Requested] in s.locks && (c != d || role != Sending)
    ensures SameHeld(s, Handed(s, d), c, role)
  {
    hide LockInv;
    HeldOf(s, d, Requested);
    if role in s.clients[c].held { HeldOf(s, c, role); }
  }

  lemma DlsHeld(s: State, d: ClientId, c: ClientId, role: Role)
    requires LockInv(s) && Ready(s, d) && c in s.clients && (c != d || role != Sending)
    ensures c in Dls(s, d).clients && SameHeld(s, Dls(s, d), c, role)
  {
    hide LockInv, SameHeld, Handed, Release;
    SelfHeld(s, c, role);
    if Requested in s.clients[d].held && s.clients[d].held[Requested] in s.locks {
      HandedHeld(s, d, c, role);
      HandedClients(s, d);
      ReleaseHeldBy(s, d, Requested, c, role);
      ReleaseHeldBy(s, d, Requested, d, role);
      var freed := Release(s, d, Requested);
      var s1 := SetCtx(freed, d, freed.clients[d].(mode := Download));
      CalmHeld(freed, s1, c, role);
      HeldChain(s, freed, s1, c, role);
    }
  }

  lemma HandedClients(s: State, d: ClientId)
    requires d in s.clients && Requested in s.clients[d].held && s.clients[d].held[Requested] in s.locks
    ensures Handed(s, d).clients.Keys == s.clients.Keys
  {
  }

  lemma SentHeld(s: State, d: ClientId, count: nat, c: ClientId, role: Role)
    requires LockInv(s) && d in s.clients && s.clients[d].mode == Download && c in s.clients && (c != d || role != Sending)
    ensures c in Transferred(s, d, count).clients && SameHeld(s, Transferred(s, d, count), c, role)
  {
    hide LockInv, Transferred;
    SentShape(s, d, count);
    if Sending in s.clients[d].held { HeldOf(s, d, Sending); }
    if role in s.clients[c].held { HeldOf(s, c, role); }
  }

  lemma ReceiveHeld(s: State, d: ClientId, t: Token, c: ClientId, role: Role)
    requires LockInv(s) && d in s.clients && c in s.clients && (c != d || role != Storing)
    ensures c in Receive(s, d, t).clients && SameHeld(s, Receive(s, d, t), c, role)
  {
    hide LockInv, Grant, Opened, Openable, SameHeld;
    var payload := Store(t.size, t.offset, t.stem, Openable(s.disk.tree, s.root, t.stem));
    var s1 := Grant(s, d, Storing, t.path, payload);
    GrantHeld(s, d, Storing, t.path, payload, c, role);
    GrantHeld(s, d, Storing, t.path, payload, d, WorkDir);
    CalmHeld(s1, Receive(s, d, t), c, role);
    HeldChain(s, s1, Receive(s, d, t), c, role);
  }

  lemma UlHeld(s: State, d: ClientId, name: string, source: string, fits: bool, c: ClientId, role: Role)
    requires LockInv(s) && Ready(s, d) && c in s.clients && (c != d || role != Storing)
    ensures var s' := Ul(s, d, name, source, fits); c in s'.clients && SameHeld(s, s', c, role)
  {
    hide LockInv, Receive, MayUpload;
    ReceiveHeld(s, d, Token(Cwd(s, d) + [name], |source|, 0, UserOf(s, d)), c, role);
  }

  lemma UlRetryHeld(s: State, d: ClientId, fits: bool, c: ClientId, role: Role)
    requires LockInv(s) && Ready(s, d) && c in s.clients && (c != d || role != Storing)
    ensures c in UlRetry(s, d, fits).clients && SameHeld(s, UlRetry(s, d, fits), c, role)
  {
    hide LockInv, Receive, MayUpload, RecordOf, SameHeld, Forgotten;
    var user := UserOf(s, d);
    var record := RecordOf(s.disk, s.root, user);
    SelfHeld(s, c, role);
    if record.Some? {
      var r, s1 := record.value, Forget(s, user);
      var t := Token(r.path, r.size, r.offset, user);
      SameLocks(s, s1);
      CalmHeld(s, s1, c, role);
      ReceiveHeld(s1, d, t, c, role);
      HeldChain(s, s1, Receive(s1, d, t), c, role);
    }
  }

  lemma DataHeld(s: State, d: ClientId, bytes: string, c: ClientId, role: Role)
    requires LockInv(s) && Receives(s, d) && c in s.clients && (c != d || role != Storing)
    ensures c in Data(s, d, bytes).clients && SameHeld(s, Data(s, d, bytes), c, role)
  {
    hide LockInv, Data;
    DataLocksOnly(s, d, bytes);
    HeldOf(s, d, Storing);
    if role in s.clients[c].held { HeldOf(s, c, role); }
  }

  lemma DataLocksOnly(s: State, d: ClientId, bytes: string)
    requires Receives(s, d)
    ensures var s', id, ctx := Data(s, d, bytes), FileOf(s, d), s.clients[d];
      && d in s'.clients && s'.clients == s.clients[d := s'.clients[d]]
      && (s'.clients[d].held == ctx.held || s'.clients[d].held == ctx.held - {Storing})
      && (s'.locks == s.locks - {id} || (id in s'.locks && s'.locks == s.locks[id := s'.locks[id]]))
  {
    hide Committed;
  }

  lemma CloseHeld(s: State, d: ClientId, c: ClientId, role: Role)
    requires LockInv(s) && d in s.clients && c in s.clients && c != d
    ensures SameHeld(s, Close(s, d), c, role)
  {
    if role in s.clients[c].held {
      assert HeldOk(s, c, role);
      assert forall q <- s.clients[d].held :: HeldOk(s, d, q);
    }
  }

  lemma Newcomer(s: State, e: Event, c: ClientId)
    requires c !in s.clients && c in Step(s, e).clients
    ensures e == Connect(c)
  {
    if !e.Connect? && !e.Disconnect? { StepMild(s, e); }
  }

  lemma FlagsHeld(s: State, e: Event, c: ClientId, role: Role)
    requires (e.DoLogout? || e.Kill? || e.Connect?) && c in Step(s, e).clients
    ensures SameHeld(s, Step(s, e), c, role)
  {
    hide SameHeld;
    CalmHeld(s, Step(s, e), c, role);
  }

  lemma TreeHeld(s: State, e: Event, c: ClientId, role: Role)
    requires e.DoRm? || e.DoRename? || e.DoMv? || e.DoCp? || e.DoMkdir?
    requires c in s.clients
    ensures c in Step(s, e).clients && SameHeld(s, Step(s, e), c, role)
  {
    hide Step, SameHeld;
    TreeMild(s, e);
    CalmHeld(s, Step(s, e), c, role);
  }

  /** What a client holds changes only by its own doing, or goes with it. */
  lemma StepSpares(s: State, e: Event, c: ClientId, role: Role)
    requires LockInv(s) && c in Step(s, e).clients && !Acts(e, c, role)
    ensures SameHeld(s, Step(s, e), c, role)
  {
    if c !in s.clients {
      Newcomer(s, e, c);
    } else if e.DoLogout? || e.Kill? || e.Connect? {
      FlagsHeld(s, e, c, role);
    } else if e.DoRm? || e.DoRename? || e.DoMv? || e.DoCp? || e.DoMkdir? {
      TreeHeld(s, e, c, role);
    } else if e.DoUl? || e.DoUlRetry? || e.DoData? {
      UploadSpares(s, e, c, role);
    } else {
      OwnSpares(s, e, c, role);
    }
  }

  lemma UploadSpares(s: State, e: Event, c: ClientId, role: Role)
    requires e.DoUl? || e.DoUlRetry? || e.DoData?
    requires LockInv(s) && c in s.clients && c in Step(s, e).clients && !Acts(e, c, role)
    ensures SameHeld(s, Step(s, e), c, role)
  {
    hide LockInv, SameHeld, Ready, Receives, Ul, UlRetry, Data;
    SelfHeld(s, c, role);
    match e
    case DoUl(d, name, source, fits) => if Ready(s, d) { UlHeld(s, d, name, source, fits, c, role); }
    case DoUlRetry(d, fits) => if Ready(s, d) { UlRetryHeld(s, d, fits, c, role); }
    case DoData(d, bytes) => if Receives(s, d) { DataHeld(s, d, bytes, c, role); }
  }

  lemma OwnSpares(s: State, e: Event, c: ClientId, role: Role)
    requires e.DoAuth? || e.DoCd? || e.DoDl? || e.DoDls? || e.DoSent? || e.Disconnect?
    requires LockInv(s) && c in s.clients && c in Step(s, e).clients && !Acts(e, c, role)
    ensures SameHeld(s, Step(s, e), c, role)
  {
    hide LockInv, SameHeld, Ready, Authorise, Cd, Dl, Dls, Transferred;
    SelfHeld(s, c, role);
    match e
    case DoAuth(d, user, valid) => if d in s.clients { AuthHeld(s, d, user, valid, c, role); }
    case DoCd(d, path) => if Ready(s, d) { CdHeld(s, d, path, c, role); }
    case DoDl(d, name, offset) => if Ready(s, d) { DlHeld(s, d, name, offset, c, role); }
    case DoDls(d) => if Ready(s, d) { DlsHeld(s, d, c, role); }
    case DoSent(d, count) => if d in s.clients && s.clients[d].mode == Download { SentHeld(s, d, count, c, role); }
    case Disconnect(d) => if d in s.clients { CloseHeld(s, d, c, role); }
  }
}
