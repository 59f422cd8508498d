/** Uploads across sessions: over any number of disconnections and `ul retry` commands, a
    finished upload holds exactly the bytes the client meant to send, at the path it meant,
    as long as nobody removes, renames or moves the configuration directory. */
module UploadTheorems {
  import opened Options
  import opened Paths
  import opened Disks
  import opened Uploads
  import opened ProtocolMode
  import opened ServerState
  import opened ServerSafety
  import opened ServerRuns
  import opened ServerFrames
  import Copy

  // ---------- the invariant ----------

  /** A record with offset o means that the user's partial file is exactly the first o
      bytes of the file meant. */
  ghost predicate RecordHolds(s: State, u: User) {
    var record := RecordOf(s.disk, s.root, u);
    record.Some? ==>
      && u in s.intent && record.value.path == s.intent[u].path && record.value.size == |s.intent[u].source|
      && Holds(s.disk, s.root, u, s.intent[u].source, record.value.offset)
  }

  /** The same for an upload in progress, which has that file open. */
  ghost predicate LockHolds(s: State, id: TokenId)
    requires id in s.locks
  {
    var lock := s.locks[id];
    lock.payload.Store? ==>
      var Store(size, offset, stem, begun) := lock.payload;
      && begun && stem in s.intent && lock.path == s.intent[stem].path && size == |s.intent[stem].source|
      && Holds(s.disk, s.root, stem, s.intent[stem].source, offset)
      && (offset < size ==> Writing(s.disk, s.root, id, stem)) && RecordOf(s.disk, s.root, stem) == None
  }

  /** Only uploads have files open, each its own. */
  ghost predicate HandleHolds(s: State, h: Handle)
    requires h in s.disk.open
  {
    h in s.locks && s.locks[h].payload.Store? && s.disk.open[h] == PartialPath(s.root, s.locks[h].payload.stem)
  }

  /** The configuration directory is there, with nothing but files in it. */
  ghost predicate ConfOk(root: Path, t: Tree) {
    IsDir(t, Conf(root)) && forall p <- t :: Inside(root, p) ==> IsFile(t, p)
  }

  ghost predicate ContentInv(s: State) {
    && ConfOk(s.root, s.disk.tree)
    && (forall h <- s.disk.open :: HandleHolds(s, h))
    && (forall u: User :: RecordHolds(s, u))
    && (forall id <- s.locks :: LockHolds(s, id))
  }

  // ---------- the runs it is about ----------

  /** The client plays its part: the bytes it sends continue the file it means to send. */
  ghost predicate Honest(s: State, e: Event) {
    e.DoData? && Receives(s, e.c) ==>
      var t := TokenOf(s, e.c);
      t.stem in s.intent && Continues(e.bytes, s.intent[t.stem].source, t.offset)
  }

  /** `rm`, `rename` or `mv` of the configuration directory, which the code does not refuse. */
  predicate Tampers(s: State, e: Event) {
    && (e.DoRm? || e.DoRename? || e.DoMv?) && Ready(s, e.c)
    && Cwd(s, e.c) + [if e.DoRename? then e.oname else e.name] == Conf(s.root)
  }

  ghost predicate HonestRun(s: State, events: seq<Event>)
    decreases |events|
  {
    events != [] ==>
      Honest(s, events[0]) && !Tampers(s, events[0]) && HonestRun(Step(s, events[0]), events[1..])
  }

  // ---------- commands do not reach the configuration directory ----------

  /** A name in a directory outside the configuration directory is not above anything in
      it, unless it is the configuration directory. */
  lemma Elsewhere(root: Path, dir: Path, name: string, q: Path)
    requires root <= dir && !(Conf(root) <= dir) && dir + [name] != Conf(root) && Conf(root) <= q
    ensures !(dir + [name] <= q)
  {
    var p, conf := dir + [name], Conf(root);
    assert p[..|dir|] == dir;
  }

  /** Nothing at or below the configuration directory has changed, but for these two. */
  ghost predicate SameConf(root: Path, d: Disk, d': Disk, but: set<Path>) {
    forall q: Path | Conf(root) <= q && q !in but ::
      (q in d'.tree <==> q in d.tree) && (q in d.tree ==> d'.tree[q] == d.tree[q])
  }

  ghost predicate HandlesInside(root: Path, d: Disk) { forall h <- d.open :: Inside(root, d.open[h]) }

  lemma ErasedConf(root: Path, d: Disk, dir: Path, name: string)
    requires root <= dir && !(Conf(root) <= dir) && dir + [name] != Conf(root) && HandlesInside(root, d)
    ensures SameConf(root, d, Erased(d, dir + [name]), {}) && Erased(d, dir + [name]).open == d.open
  {
    var p, d' := dir + [name], Erased(d, dir + [name]);
    forall q | q in d.tree && Conf(root) <= q ensures !(p <= q) { Elsewhere(root, dir, name, q); }
    forall h | h in d.open ensures !(p <= d.open[h]) { Elsewhere(root, dir, name, d.open[h]); }
  }

  lemma RelocatedConf(root: Path, d: Disk, dir: Path, name: string, dir': Path, name': string)
    requires root <= dir && !(Conf(root) <= dir) && dir + [name] != Conf(root) && HandlesInside(root, d)
    requires root <= dir' && !(Conf(root) <= dir') && dir' + [name'] != Conf(root)
    ensures var d' := Relocated(d, dir + [name], dir' + [name']); SameConf(root, d, d', {}) && d'.open == d.open
  {
    hide Moved;
    var from, to := dir + [name], dir' + [name'];
    forall q: Path | Conf(root) <= q
      ensures !(from <= q) && (q in Moved(d.tree, from, to) <==> q in d.tree)
      ensures q in d.tree ==> Moved(d.tree, from, to)[q] == d.tree[q]
    {
      Elsewhere(root, dir, name, q);
      Elsewhere(root, dir', name', q);
      MovedExact(d.tree, from, to, q);
    }
  }

  lemma AddedConf(root: Path, d: Disk, dir: Path, name: string, node: Node)
    requires root <= dir && !(Conf(root) <= dir) && dir + [name] != Conf(root)
    ensures SameConf(root, d, Added(d, dir + [name], node), {})
  {
    var p := dir + [name];
    if Conf(root) <= p {
      Elsewhere(root, dir, name, p);
    }
  }

  /** What the tree commands need to know of the state. */
  ghost predicate Guarded(s: State) { ConfOk(s.root, s.disk.tree) && HandlesInside(s.root, s.disk) }

  lemma ContentGuards(s: State)
    requires ContentInv(s)
    ensures Guarded(s)
  {
    forall h | h in s.disk.open ensures Inside(s.root, s.disk.open[h]) {
      assert HandleHolds(s, h);
      TemporaryInside(s.root, s.locks[h].payload.stem);
    }
  }

  ghost predicate ConfStays(s: State, s': State) {
    SameConf(s.root, s.disk, s'.disk, {}) && s'.disk.open == s.disk.open
  }

  lemma SelfConf(s: State)
    ensures ConfStays(s, s)
  {
  }

  lemma RmConf(s: State, c: ClientId, name: string)
    requires Inv(s) && Guarded(s) && Ready(s, c) && !Tampers(s, DoRm(c, name))
    ensures ConfStays(s, Rm(s, c, name))
  {
    hide Inv, IsLocked, Erased, SameConf;
    SelfConf(s);
    ReadyFacts(s, c);
    ErasedConf(s.root, s.disk, Cwd(s, c), name);
  }

  lemma RenameConf(s: State, c: ClientId, oname: string, nname: string)
    requires Inv(s) && Guarded(s) && Ready(s, c) && !Tampers(s, DoRename(c, oname, nname))
    ensures ConfStays(s, Rename(s, c, oname, nname))
  {
    hide Inv, IsLocked, Relocated, SameConf;
    SelfConf(s);
    ReadyFacts(s, c);
    if Cwd(s, c) + [nname] !in s.disk.tree {
      RelocatedConf(s.root, s.disk, Cwd(s, c), oname, Cwd(s, c), nname);
    }
  }

  lemma DirOutside(s: State, dir: Path)
    requires Inv(s) && IsDir(s.disk.tree, dir) && !Forbidden(s.root, dir)
    ensures s.root <= dir && !(Conf(s.root) <= dir)
  {
    assert WellFormed(s.disk.tree, s.root);
    hide Inv;
    AllowedOutside(s.root, s.disk.tree, dir);
  }

  lemma MvConf(s: State, c: ClientId, name: string, dir: Path)
    requires Inv(s) && Guarded(s) && Ready(s, c) && !Tampers(s, DoMv(c, name, dir))
    ensures ConfStays(s, Mv(s, c, name, dir))
  {
    hide Inv, IsLocked, Relocated, SameConf, Forbidden;
    SelfConf(s);
    ReadyFacts(s, c);
    if IsDir(s.disk.tree, dir) && !Forbidden(s.root, dir) && dir + [name] !in s.disk.tree {
      DirOutside(s, dir);
      RelocatedConf(s.root, s.disk, Cwd(s, c), name, dir, name);
    }
  }

  lemma CpConf(s: State, c: ClientId, name: string, dir: Path)
    requires Inv(s) && Guarded(s) && Ready(s, c)
    ensures ConfStays(s, Cp(s, c, name, dir))
  {
    hide Inv, SameConf, Forbidden;
    var t, from := s.disk.tree, Cwd(s, c) + [name];
    SelfConf(s);
    if IsFile(t, from) && IsDir(t, dir) && !Forbidden(s.root, dir) {
      DirOutside(s, dir);
      var k := Copy.Search(t, dir, name, 0);
      AddedConf(s.root, s.disk, dir, if k == 0 then name else Copy.CopyName(name, k), t[from]);
    }
  }

  lemma MkdirConf(s: State, c: ClientId, name: string)
    requires Inv(s) && Guarded(s) && Ready(s, c)
    ensures ConfStays(s, Mkdir(s, c, name))
  {
    hide Inv, SameConf;
    SelfConf(s);
    ReadyFacts(s, c);
    if Cwd(s, c) + [name] !in s.disk.tree { AddedConf(s.root, s.disk, Cwd(s, c), name, Dir); }
  }

  lemma TreeConf(s: State, e: Event)
    requires Inv(s) && Guarded(s) && !Tampers(s, e)
    requires e.DoRm? || e.DoRename? || e.DoMv? || e.DoCp? || e.DoMkdir?
    ensures ConfStays(s, Step(s, e)) && Step(s, e) == SetDisk(s, Step(s, e).disk)
  {
    hide Inv, Guarded, ConfStays, Ready, Rm, Rename, Mv, Cp, Mkdir, Tampers;
    SelfConf(s);
    TreeMild(s, e);
    match e
    case DoRm(c, name) => if Ready(s, c) { RmConf(s, c, name); }
    case DoRename(c, oname, nname) => if Ready(s, c) { RenameConf(s, c, oname, nname); }
    case DoMv(c, name, dir) => if Ready(s, c) { MvConf(s, c, name, dir); }
    case DoCp(c, name, dir) => if Ready(s, c) { CpConf(s, c, name, dir); }
    case DoMkdir(c, name) => if Ready(s, c) { MkdirConf(s, c, name); }
  }

  // ---------- steps that have nothing to do with uploads ----------

  /** Who uploads keeps its token when others act. */
  lemma UploaderKept(s: State, e: Event, h: TokenId)
    requires Inv(s) && Inv(Step(s, e)) && h in s.locks && s.locks[h].payload.Store?
    requires e.c != s.locks[h].owner || !(e.DoUl? || e.DoUlRetry? || e.DoData? || e.Disconnect?)
    ensures h in Step(s, e).locks && Step(s, e).locks[h] == s.locks[h]
  {
    hide Step, Inv;
    var d := s.locks[h].owner;
    StoreOwner(s, h);
    StaysUploading(s, e, d);
    UploaderStores(Step(s, e), d);
    assert !Acts(e, d, Storing);
    InvParts(s);
    StepSpares(s, e, d, Storing);
  }

  lemma UploaderStores(s: State, d: ClientId)
    requires Inv(s) && d in s.clients && s.clients[d].mode == Upload
    ensures Storing in s.clients[d].held
  {
    assert CtxOk(s, d);
  }

  lemma StoreOwner(s: State, h: TokenId)
    requires Inv(s) && h in s.locks && s.locks[h].payload.Store?
    ensures var d := s.locks[h].owner;
      d in s.clients && Storing in s.clients[d].held && s.clients[d].held[Storing] == h && s.clients[d].mode == Upload
  {
    assert LockOk(s, h) && Placed(s.root, s.disk.tree, s.locks[h]);
    assert CtxOk(s, s.locks[h].owner);
  }

  lemma StaysUploading(s: State, e: Event, d: ClientId)
    requires d in s.clients && s.clients[d].mode == Upload
    requires e.c != d || !(e.DoUl? || e.DoUlRetry? || e.DoData? || e.Disconnect?)
    ensures d in Step(s, e).clients && Step(s, e).clients[d].mode == Upload
  {
    if e.c == d {
      UploaderIdle(s, e);
    } else if !e.Connect? && !e.Disconnect? {
      hide Step;
      StepMild(s, e);
    }
  }

  /** A client in upload mode can take no step but those of its upload. */
  lemma UploaderIdle(s: State, e: Event)
    requires e.c in s.clients && s.clients[e.c].mode == Upload
    requires !(e.DoUl? || e.DoUlRetry? || e.DoData? || e.Disconnect?)
    ensures Step(s, e) == s || (e.Kill? && Step(s, e) == SetCtx(s, e.c, s.clients[e.c].(alive := false)))
  {
    hide Authorise, Logout, Cd, Dl, Dls, Transferred, Rm, Rename, Mv, Cp, Mkdir, SetCtx;
    assert !Ready(s, e.c);
    hide Ready;
  }

  lemma FrameHolds(s: State, s': State)
    requires ContentInv(s) && ConfStays(s, s') && s'.intent == s.intent && s'.root == s.root
    requires forall h <- s.locks :: s.locks[h].payload.Store? ==> h in s'.locks && s'.locks[h] == s.locks[h]
    requires forall h <- s'.locks :: s'.locks[h].payload.Store? ==> h in s.locks && s'.locks[h] == s.locks[h]
    ensures ContentInv(s')
  {
    forall u: User ensures RecordHolds(s', u) {
      TemporaryInside(s.root, u);
      assert RecordHolds(s, u);
    }
    forall id | id in s'.locks ensures LockHolds(s', id) {
      if s'.locks[id].payload.Store? {
        assert LockHolds(s, id);
        TemporaryInside(s.root, s.locks[id].payload.stem);
      }
    }
    forall h | h in s'.disk.open ensures HandleHolds(s', h) {
      assert HandleHolds(s, h);
    }
  }

  lemma LockBefore(s: State, e: Event, h: TokenId)
    requires Inv(s) && Inv(Step(s, e)) && h in Step(s, e).locks && Step(s, e).locks[h].payload.Store?
    requires e.c != Step(s, e).locks[h].owner || !(e.DoUl? || e.DoUlRetry? || e.DoData?)
    ensures h in s.locks && Step(s, e).locks[h] == s.locks[h]
  {
    var s' := Step(s, e);
    var d := s'.locks[h].owner;
    StoreOwner(s', h);
    InvParts(s);
    assert !Acts(e, d, Storing);
    StepSpares(s, e, d, Storing);
    hide Step, Inv;
    HeldOf(s, d, Storing);
  }

  lemma QuietConf(s: State, e: Event)
    requires Inv(s) && ContentInv(s) && !Tampers(s, e)
    requires !e.DoUl? && !e.DoUlRetry? && !e.DoData? && !e.Disconnect?
    ensures ConfStays(s, Step(s, e)) && Step(s, e).intent == s.intent && Step(s, e).root == s.root
  {
    hide Inv, ContentInv, Tampers;
    ContentGuards(s);
    SelfConf(s);
    if e.DoRm? || e.DoRename? || e.DoMv? || e.DoCp? || e.DoMkdir? {
      TreeConf(s, e);
    } else if !e.Connect? {
      StillMild(s, e);
    }
  }

  lemma QuietKeeps(s: State, e: Event)
    requires Inv(s) && ContentInv(s) && !Tampers(s, e)
    requires !e.DoUl? && !e.DoUlRetry? && !e.DoData? && !e.Disconnect?
    ensures ContentInv(Step(s, e))
  {
    hide Inv, ContentInv, Step, ConfStays, Tampers;
    StepKeeps(s, e);
    QuietConf(s, e);
    var s' := Step(s, e);
    forall h | h in s.locks && s.locks[h].payload.Store? ensures h in s'.locks && s'.locks[h] == s.locks[h] {
      UploaderKept(s, e, h);
    }
    forall h | h in s'.locks && s'.locks[h].payload.Store? ensures h in s.locks && s'.locks[h] == s.locks[h] {
      LockBefore(s, e, h);
    }
    FrameHolds(s, s');
  }

  // ---------- steps of an upload ----------

  function Temporary(root: Path, u: User): set<Path> { {PartialPath(root, u), BackupPath(root, u)} }

  /** An upload of another client: neither the client's own nor under its name. */
  ghost predicate OfAnother(s: State, c: ClientId, h: TokenId)
    requires h in s.locks
  {
    s.locks[h].payload.Store? && s.locks[h].owner != c
  }

  ghost predicate LocksKept(s: State, s': State, c: ClientId, user: User) {
    && (forall h <- s.locks :: OfAnother(s, c, h) ==> h in s'.locks && s'.locks[h] == s.locks[h] && s.locks[h].payload.stem != user)
    && (forall h <- s'.locks :: OfAnother(s', c, h) ==> h in s.locks && s'.locks[h] == s.locks[h])
  }

  /** Of the uploads and files of the others, a step of c under the name `user` changes
      nothing. */
  ghost predicate SparesOthers(s: State, s': State, c: ClientId, user: User) {
    && s'.root == s.root && ConfOk(s'.root, s'.disk.tree)
    && SameConf(s.root, s.disk, s'.disk, Temporary(s.root, user))
    && (forall u: User :: u != user && u in s.intent ==> u in s'.intent && s'.intent[u] == s.intent[u])
    && LocksKept(s, s', c, user)
    && (forall h <- s.disk.open :: h in s.locks && OfAnother(s, c, h) ==> h in s'.disk.open && s'.disk.open[h] == s.disk.open[h])
  }

  /** A handle that was there before and is another client's. */
  ghost predicate OldHandle(s: State, s': State, c: ClientId, h: Handle)
    requires h in s'.disk.open
  {
    h in s.disk.open && s'.disk.open[h] == s.disk.open[h] && h in s.locks && OfAnother(s, c, h)
  }

  lemma OthersHold(s: State, s': State, c: ClientId, user: User)
    requires ContentInv(s) && SparesOthers(s, s', c, user) && RecordHolds(s', user)
    requires forall h <- s'.locks :: s'.locks[h].owner == c ==> LockHolds(s', h)
    requires forall h <- s'.disk.open :: OldHandle(s, s', c, h) || HandleHolds(s', h)
    ensures ContentInv(s')
  {
    forall u: User ensures RecordHolds(s', u) {
      if u != user { OtherRecord(s, s', c, user, u); }
    }
    forall h | h in s'.locks ensures LockHolds(s', h) {
      if OfAnother(s', c, h) { OtherLock(s, s', c, user, h); }
    }
    forall h | h in s'.disk.open ensures HandleHolds(s', h) {
      if OldHandle(s, s', c, h) { assert HandleHolds(s, h); }
    }
  }

  lemma OtherRecord(s: State, s': State, c: ClientId, user: User, u: User)
    requires ContentInv(s) && SparesOthers(s, s', c, user) && u != user
    ensures RecordHolds(s', u)
  {
    assert RecordHolds(s, u);
    OtherFiles(s, s', c, user, u);
  }

  lemma OtherFiles(s: State, s': State, c: ClientId, user: User, u: User)
    requires SparesOthers(s, s', c, user) && u != user
    ensures var p, b := PartialPath(s.root, u), BackupPath(s.root, u);
      && (p in s'.disk.tree <==> p in s.disk.tree) && (p in s.disk.tree ==> s'.disk.tree[p] == s.disk.tree[p])
      && (b in s'.disk.tree <==> b in s.disk.tree) && (b in s.disk.tree ==> s'.disk.tree[b] == s.disk.tree[b])
  {
    TemporaryInside(s.root, u);
    TemporaryApart(s.root, u, user);
    TemporaryApart(s.root, user, u);
  }

  lemma OtherLock(s: State, s': State, c: ClientId, user: User, h: TokenId)
    requires ContentInv(s) && SparesOthers(s, s', c, user) && h in s'.locks && OfAnother(s', c, h)
    ensures LockHolds(s', h)
  {
    assert h in s.locks && OfAnother(s, c, h) && LockHolds(s, h);
    OtherFiles(s, s', c, user, s.locks[h].payload.stem);
  }

  /** A user's name belongs to no upload of another client. */
  lemma OtherStem(s: State, c: ClientId, h: TokenId, user: User)
    requires Inv(s) && h in s.locks && OfAnother(s, c, h) && c in s.clients
    requires s.clients[c].auth.Some? && s.clients[c].auth.value in s.auths && s.auths[s.clients[c].auth.value].user == user
    ensures s.locks[h].payload.stem != user
  {
    StoreOwner(s, h);
    OthersStems(s, c, s.locks[h].owner);
  }

  ghost predicate NamedBy(s: State, c: ClientId, user: User) {
    c in s.clients && s.clients[c].auth.Some? && s.clients[c].auth.value in s.auths
    && s.auths[s.clients[c].auth.value].user == user
  }

  /** Others' locks, for a step of c. */
  lemma LocksSpared(s: State, e: Event, user: User)
    requires Inv(s) && Inv(Step(s, e)) && NamedBy(s, e.c, user)
    ensures LocksKept(s, Step(s, e), e.c, user)
  {
    hide Inv, Step;
    var s' := Step(s, e);
    forall h | h in s.locks && OfAnother(s, e.c, h)
      ensures h in s'.locks && s'.locks[h] == s.locks[h] && s.locks[h].payload.stem != user
    {
      UploaderKept(s, e, h);
      OtherStem(s, e.c, h, user);
    }
    forall h | h in s'.locks && OfAnother(s', e.c, h) ensures h in s.locks && s'.locks[h] == s.locks[h] {
      LockBefore(s, e, h);
    }
  }

  // ---------- what the operations do in the configuration directory ----------

  /** The configuration directory afterwards: the same but for the user's files. */
  ghost predicate Touches(root: Path, d: Disk, d': Disk, u: User) {
    SameConf(root, d, d', Temporary(root, u)) && ConfOk(root, d'.tree)
  }

  lemma PutTouches(root: Path, d: Disk, u: User, p: Path, node: Node)
    requires ConfOk(root, d.tree) && p in Temporary(root, u) && !node.Dir?
    ensures Touches(root, d, d.(tree := d.tree[p := node]), u)
  {
    TemporaryInside(root, u);
  }

  lemma TouchesChain(root: Path, d1: Disk, d2: Disk, d3: Disk, u: User)
    requires Touches(root, d1, d2, u) && Touches(root, d2, d3, u)
    ensures Touches(root, d1, d3, u)
  {
  }

  ghost predicate NoHandleAt(d: Disk, p: Path) { forall h <- d.open :: d.open[h] != p }

  lemma ForgottenTouches(root: Path, d: Disk, u: User)
    requires ConfOk(root, d.tree) && NoHandleAt(d, BackupPath(root, u))
    ensures Touches(root, d, Forgotten(d, root, u), u) && Forgotten(d, root, u).open == d.open
    ensures RecordOf(Forgotten(d, root, u), root, u) == None
    ensures var p := PartialPath(root, u);
      && (p in Forgotten(d, root, u).tree <==> p in d.tree)
      && (p in d.tree ==> Forgotten(d, root, u).tree[p] == d.tree[p])
  {
    TemporaryInside(root, u);
    TemporaryApart(root, u, u);
  }

  lemma OpenedTouches(root: Path, d: Disk, h: Handle, t: Token)
    requires ConfOk(root, d.tree) && NoHandleAt(d, BackupPath(root, t.stem))
    ensures var d', p := Opened(d, root, h, t), PartialPath(root, t.stem);
      && Touches(root, d, d', t.stem) && d'.open == d.open[h := p] && RecordOf(d', root, t.stem) == None
  {
    var p := PartialPath(root, t.stem);
    TemporaryInside(root, t.stem);
    TemporaryApart(root, t.stem, t.stem);
    var node := if t.offset != 0 && p in d.tree then d.tree[p] else File("");
    var d1 := Disk(d.tree[p := node], d.open[h := p]);
    PutTouches(root, d, t.stem, p, node);
    hide Forgotten, Touches;
    TouchesSameTree(root, d, d.(tree := d1.tree), d1, t.stem);
    ForgottenTouches(root, d1, t.stem);
    TouchesChain(root, d, d1, Opened(d, root, h, t), t.stem);
  }

  lemma TouchesSameTree(root: Path, d: Disk, d1: Disk, d2: Disk, u: User)
    requires Touches(root, d, d1, u) && d2.tree == d1.tree
    ensures Touches(root, d, d2, u) && ConfOk(root, d2.tree)
  {
  }

  lemma BackedUpTouches(root: Path, d: Disk, t: Token, h: Handle)
    requires ConfOk(root, d.tree)
    ensures var d' := Closed(BackedUp(d, root, t), h);
      && Touches(root, d, d', t.stem) && d'.open == d.open - {h}
      && RecordOf(d', root, t.stem) == Some(Record(t.path, t.size, t.offset))
      && (PartialPath(root, t.stem) in d.tree ==>
            PartialPath(root, t.stem) in d'.tree && d'.tree[PartialPath(root, t.stem)] == d.tree[PartialPath(root, t.stem)])
  {
    var b := BackupPath(root, t.stem);
    TemporaryInside(root, t.stem);
    TemporaryApart(root, t.stem, t.stem);
    PutTouches(root, d, t.stem, b, Notes(Record(t.path, t.size, t.offset)));
  }

  /** No other upload has its file open at p, or at the destination. */
  ghost predicate OnlyHandle(root: Path, d: Disk, h: Handle, u: User) {
    && (h in d.open ==> d.open[h] == PartialPath(root, u))
    && forall k <- d.open :: k != h ==> Inside(root, d.open[k]) && d.open[k] != PartialPath(root, u)
  }

  lemma WrittenTouches(root: Path, d: Disk, h: Handle, u: User, bytes: string)
    requires ConfOk(root, d.tree) && OnlyHandle(root, d, h, u)
    ensures Touches(root, d, Written(d, h, bytes), u) && Written(d, h, bytes).open == d.open
  {
    if h in d.open && d.open[h] in d.tree {
      var p := PartialPath(root, u);
      PutTouches(root, d, u, p, File(TextOf(d.tree[p]) + bytes));
    }
  }

  lemma ReplacedTouches(root: Path, d: Disk, h: Handle, u: User, dest: Path)
    requires ConfOk(root, d.tree) && OnlyHandle(root, d, h, u) && h !in d.open
    requires dest != [] && !Inside(root, dest) && Renamable(d.tree, PartialPath(root, u), dest)
    ensures var d' := Replaced(d, PartialPath(root, u), dest); Touches(root, d, d', u) && d'.open == d.open
  {
    TemporaryInside(root, u);
  }

  lemma CommittedTouches(root: Path, d: Disk, h: Handle, t: Token, bytes: string)
    requires ConfOk(root, d.tree) && ValidToken(t) && !Inside(root, t.path) && OnlyHandle(root, d, h, t.stem)
    ensures var r := Committed(d, root, h, t, bytes);
      && Touches(root, d, r.disk, t.stem)
      && r.disk.open == (if r.token.Some? && r.token.value.offset < t.size then d.open else d.open - {h})
      && RecordOf(r.disk, root, t.stem) == RecordOf(d, root, t.stem)
  {
    hide Written, Replaced, RecordOf, Touches, ConfOk, OnlyHandle, Inside, Renamable;
    var missing := t.size - t.offset;
    var count := if |bytes| < missing then |bytes| else missing;
    CommittedRecord(root, d, h, t, bytes);
    WrittenTouches(root, d, h, t.stem, bytes[..count]);
    if count == missing { FinishTouches(root, d, Written(d, h, bytes[..count]), h, t.stem, t.path); }
  }

  /** Closing the file and renaming it, if that can be done. */
  lemma FinishTouches(root: Path, d: Disk, d1: Disk, h: Handle, u: User, dest: Path)
    requires OnlyHandle(root, d, h, u) && Touches(root, d, d1, u) && d1.open == d.open && dest != [] && !Inside(root, dest)
    ensures var d2, p := Closed(d1, h), PartialPath(root, u);
      && Touches(root, d, d2, u)
      && (Renamable(d2.tree, p, dest) ==>
            Touches(root, d, Replaced(d2, p, dest), u) && Replaced(d2, p, dest).open == d.open - {h})
  {
    hide Replaced, Touches, ConfOk, Inside;
    var d2, p := Closed(d1, h), PartialPath(root, u);
    TouchesSameTree(root, d, d1, d2, u);
    if Renamable(d2.tree, p, dest) {
      ReplacedTouches(root, d2, h, u, dest);
      TouchesChain(root, d, d2, Replaced(d2, p, dest), u);
    }
  }

  lemma CommittedRecord(root: Path, d: Disk, h: Handle, t: Token, bytes: string)
    requires ValidToken(t) && !Inside(root, t.path) && OnlyHandle(root, d, h, t.stem)
    ensures RecordOf(Committed(d, root, h, t, bytes).disk, root, t.stem) == RecordOf(d, root, t.stem)
  {
    TemporaryInside(root, t.stem);
    TemporaryApart(root, t.stem, t.stem);
  }

  // ---------- the steps ----------

  lemma OwnHandleOnly(s: State, c: ClientId, h: TokenId, user: User)
    requires Inv(s) && ContentInv(s) && NamedBy(s, c, user)
    requires forall k <- s.locks :: s.locks[k].payload.Store? && s.locks[k].owner == c ==> k == h
    requires h in s.locks && s.locks[h].payload.Store? ==> s.locks[h].payload.stem == user
    ensures OnlyHandle(s.root, s.disk, h, user) && NoHandleAt(s.disk, BackupPath(s.root, user))
  {
    hide Inv, RecordHolds, LockHolds, ConfOk;
    forall k | k in s.disk.open
      ensures Inside(s.root, s.disk.open[k]) && s.disk.open[k] != BackupPath(s.root, user)
      ensures s.disk.open[k] == PartialPath(s.root, user) <==> k == h
    {
      assert HandleHolds(s, k);
      var stem := s.locks[k].payload.stem;
      TemporaryInside(s.root, stem);
      TemporaryApart(s.root, stem, user);
      if k != h { OtherStem(s, c, k, user); }
    }
  }

  /** A client that is not uploading has no lock of an upload. */
  lemma NoStore(s: State, c: ClientId)
    requires Inv(s) && c in s.clients && s.clients[c].mode != Upload
    ensures forall k <- s.locks :: s.locks[k].payload.Store? ==> s.locks[k].owner != c
  {
    forall k | k in s.locks && s.locks[k].payload.Store? ensures s.locks[k].owner != c { StoreOwner(s, k); }
  }

  lemma OneStore(s: State, c: ClientId)
    requires Inv(s) && Receives(s, c)
    ensures forall k <- s.locks :: s.locks[k].payload.Store? && s.locks[k].owner == c ==> k == FileOf(s, c)
    ensures NamedBy(s, c, TokenOf(s, c).stem) && s.locks[FileOf(s, c)].owner == c
  {
    assert CtxOk(s, c) && HeldOk(s, c, Storing);
    forall k | k in s.locks && s.locks[k].payload.Store? && s.locks[k].owner == c ensures k == FileOf(s, c) {
      StoreOwner(s, k);
    }
  }

  lemma ReceiveShape(s: State, c: ClientId, t: Token)
    requires c in s.clients && Openable(s.disk.tree, s.root, t.stem)
    ensures var s' := Receive(s, c, t);
      && s'.disk == Opened(s.disk, s.root, s.next, t) && s'.intent == s.intent && s'.root == s.root
      && c in s'.clients && Storing in s'.clients[c].held && s'.clients[c].held[Storing] == s.next
      && s.next in s'.locks && s'.locks[s.next] == Lock(t.path, c, Storing, Store(t.size, t.offset, t.stem, true))
  {
    hide Grant, Opened;
    GrantShape(s, c, Storing, t.path, Store(t.size, t.offset, t.stem, true));
  }

  lemma NextIsNew(s: State)
    requires Inv(s)
    ensures s.next !in s.locks
  {
    assert s.next in s.locks ==> LockOk(s, s.next);
  }

  lemma TemporaryOpens(root: Path, t: Tree, u: User)
    requires ConfOk(root, t)
    ensures Openable(t, root, u)
  {
    TemporaryInside(root, u);
  }

  /** An upload starts, anew or from where a record says. */
  lemma StartHolds(s: State, e: Event, d: Disk, t: Token, intent: map<User, Intent>)
    requires Inv(s) && ContentInv(s) && Inv(Step(s, e)) && Ready(s, e.c) && t.stem == UserOf(s, e.c)
    requires Touches(s.root, s.disk, d, t.stem) && d.open == s.disk.open
    requires Step(s, e) == Receive(SetDisk(s, d), e.c, t).(intent := intent)
    requires t.stem in intent && intent[t.stem].path == t.path && |intent[t.stem].source| == t.size
    requires t.offset == 0 || Holds(d, s.root, t.stem, intent[t.stem].source, t.offset)
    requires forall u :: u != t.stem && u in s.intent ==> u in intent && intent[u] == s.intent[u]
    ensures ContentInv(Step(s, e))
  {
    hide Inv, Step, ContentInv, Receive, Opened, Touches, Holds, Openable;
    var c, user, s', id := e.c, t.stem, Step(s, e), s.next;
    NoStore(s, c);
    NextIsNew(s);
    OwnHandleOnly(s, c, id, user);
    LocksSpared(s, e, user);
    StartDisk(s, d, t, intent[user].source);
    ReceiveShape(SetDisk(s, d), c, t);
    OwnStore(s', c);
    StartSpares(s, s', c, t);
    StartOthers(s, s', c, t);
  }

  lemma StartDisk(s: State, d: Disk, t: Token, source: string)
    requires Touches(s.root, s.disk, d, t.stem) && d.open == s.disk.open && NoHandleAt(s.disk, BackupPath(s.root, t.stem))
    requires t.offset == 0 || Holds(d, s.root, t.stem, source, t.offset)
    ensures Openable(d.tree, s.root, t.stem)
    ensures var d' := Opened(d, s.root, s.next, t);
      && Touches(s.root, s.disk, d', t.stem) && d'.open == s.disk.open[s.next := PartialPath(s.root, t.stem)]
      && RecordOf(d', s.root, t.stem) == None
      && Holds(d', s.root, t.stem, source, t.offset) && Writing(d', s.root, s.next, t.stem)
  {
    hide Opened, Holds;
    TemporaryOpens(s.root, d.tree, t.stem);
    OpenedTouches(s.root, d, s.next, t);
    OpenedHolds(d, s.root, s.next, t, source);
    hide Touches;
    TouchesChain(s.root, s.disk, d, Opened(d, s.root, s.next, t), t.stem);
  }

  /** In a state that keeps the invariant, a client has one upload at most. */
  lemma OwnStore(s: State, c: ClientId)
    requires Inv(s) && c in s.clients && Storing in s.clients[c].held
    ensures forall k <- s.locks :: s.locks[k].payload.Store? && s.locks[k].owner == c ==> k == s.clients[c].held[Storing]
  {
    forall k | k in s.locks && s.locks[k].payload.Store? && s.locks[k].owner == c
      ensures k == s.clients[c].held[Storing]
    {
      StoreOwner(s, k);
    }
  }

  lemma StartSpares(s: State, s': State, c: ClientId, t: Token)
    requires LocksKept(s, s', c, t.stem) && s'.root == s.root && s.next !in s.locks
    requires Touches(s.root, s.disk, s'.disk, t.stem)
    requires s'.disk.open == s.disk.open[s.next := PartialPath(s.root, t.stem)]
    requires forall u :: u != t.stem && u in s.intent ==> u in s'.intent && s'.intent[u] == s.intent[u]
    ensures SparesOthers(s, s', c, t.stem)
  {
  }

  lemma StartOthers(s: State, s': State, c: ClientId, t: Token)
    requires ContentInv(s) && SparesOthers(s, s', c, t.stem) && RecordOf(s'.disk, s.root, t.stem) == None
    requires forall k <- s.locks :: s.locks[k].payload.Store? ==> s.locks[k].owner != c
    requires forall k <- s'.locks :: s'.locks[k].payload.Store? && s'.locks[k].owner == c ==> k == s.next
    requires s.next in s'.locks && s'.locks[s.next] == Lock(t.path, c, Storing, Store(t.size, t.offset, t.stem, true))
    requires s'.disk.open == s.disk.open[s.next := PartialPath(s.root, t.stem)]
    requires t.stem in s'.intent && s'.intent[t.stem].path == t.path && |s'.intent[t.stem].source| == t.size
    requires Holds(s'.disk, s.root, t.stem, s'.intent[t.stem].source, t.offset)
    requires Writing(s'.disk, s.root, s.next, t.stem)
    ensures ContentInv(s')
  {
    hide SparesOthers, RecordOf, Holds;
    SparesRoot(s, s', c, t.stem);
    forall h | h in s'.disk.open ensures OldHandle(s, s', c, h) || HandleHolds(s', h) {
      if h != s.next { assert HandleHolds(s, h); }
    }
    OthersHold(s, s', c, t.stem);
  }

  lemma SparesRoot(s: State, s': State, c: ClientId, user: User)
    requires SparesOthers(s, s', c, user)
    ensures s'.root == s.root
  {
  }

  lemma UlHolds(s: State, c: ClientId, name: string, source: string, fits: bool)
    requires Inv(s) && ContentInv(s) && Ready(s, c) && Component(name)
    ensures ContentInv(Ul(s, c, name, source, fits))
  {
    hide Inv, ContentInv, Receive, MayUpload, Touches;
    var e, path, user := DoUl(c, name, source, fits), Cwd(s, c) + [name], UserOf(s, c);
    var t, intent := Token(path, |source|, 0, user), s.intent[user := Intent(path, source)];
    if MayUpload(s, path, fits) {
      StepKeeps(s, e);
      SelfTouches(s, user);
      assert Step(s, e) == Receive(SetDisk(s, s.disk), c, t).(intent := intent);
      hide Step;
      StartHolds(s, e, s.disk, t, intent);
    }
  }

  lemma SelfTouches(s: State, user: User)
    requires ContentInv(s)
    ensures Touches(s.root, s.disk, s.disk, user)
  {
  }

  /** The record of c's user is read and removed. */
  lemma RetryDisk(s: State, c: ClientId)
    requires Inv(s) && ContentInv(s) && Ready(s, c)
    ensures var user := UserOf(s, c); var d := Forgotten(s.disk, s.root, user);
      && Touches(s.root, s.disk, d, user) && d.open == s.disk.open && RecordOf(d, s.root, user) == None
      && (forall source, o :: Holds(s.disk, s.root, user, source, o) ==> Holds(d, s.root, user, source, o))
  {
    hide Inv;
    var user := UserOf(s, c);
    NoStore(s, c);
    NextIsNew(s);
    OwnHandleOnly(s, c, s.next, user);
    ForgottenTouches(s.root, s.disk, user);
  }

  lemma UlRetryHolds(s: State, c: ClientId, fits: bool)
    requires Inv(s) && ContentInv(s) && Ready(s, c)
    ensures ContentInv(UlRetry(s, c, fits))
  {
    var user := UserOf(s, c);
    var record := RecordOf(s.disk, s.root, user);
    if record.Some? {
      assert RecordHolds(s, user);
      hide Inv, ContentInv, Receive, MayUpload, Touches, RecordOf, Forgotten, Holds;
      var e, r, s1 := DoUlRetry(c, fits), record.value, Forget(s, user);
      StepKeeps(s, e);
      RetryDisk(s, c);
      if MayUpload(s1, r.path, fits) {
        var t := Token(r.path, r.size, r.offset, user);
        ReceiveIntent(s1, c, t);
        StartHolds(s, e, s1.disk, t, s.intent);
      } else {
        RefusedHolds(s, e, user);
      }
    }
  }

  lemma ReceiveIntent(s: State, c: ClientId, t: Token)
    requires c in s.clients
    ensures Receive(s, c, t).(intent := s.intent) == Receive(s, c, t)
  {
    hide Grant, Opened, Openable;
    GrantShape(s, c, Storing, t.path, Store(t.size, t.offset, t.stem, Openable(s.disk.tree, s.root, t.stem)));
  }

  lemma RefusedHolds(s: State, e: Event, user: User)
    requires Inv(s) && ContentInv(s) && Inv(Step(s, e)) && Ready(s, e.c) && user == UserOf(s, e.c)
    requires Step(s, e) == Forget(s, user)
    ensures ContentInv(Step(s, e))
  {
    hide Inv, Step, Forgotten, Touches, RecordOf, Holds;
    var s' := Step(s, e);
    NoStore(s, e.c);
    LocksSpared(s, e, user);
    RetryDisk(s, e.c);
    assert SparesOthers(s, s', e.c, user) by { assert Touches(s.root, s.disk, s'.disk, user); TouchesParts(s.root, s.disk, s'.disk, user); }
    forall h | h in s'.disk.open ensures OldHandle(s, s', e.c, h) { assert HandleHolds(s, h); }
    OthersHold(s, s', e.c, user);
  }

  lemma TouchesParts(root: Path, d: Disk, d': Disk, u: User)
    requires Touches(root, d, d', u)
    ensures SameConf(root, d, d', Temporary(root, u)) && ConfOk(root, d'.tree)
  {
  }

  /** A client goes; its record takes over. */
  lemma CloseHolds(s: State, c: ClientId)
    requires Inv(s) && ContentInv(s) && c in s.clients
    ensures ContentInv(Close(s, c))
  {
    hide Inv, ContentInv, Close;
    StepKeeps(s, Disconnect(c));
    if Receives(s, c) {
      CloseRecord(s, c);
    } else {
      if s.clients[c].mode == Upload { UploaderReceives(s, c); }
      CloseQuiet(s, c);
    }
  }

  /** Whoever is in upload mode receives. */
  lemma UploaderReceives(s: State, c: ClientId)
    requires Inv(s) && ContentInv(s) && c in s.clients && s.clients[c].mode == Upload
    ensures Receives(s, c)
  {
    assert CtxOk(s, c) && HeldOk(s, c, Storing);
    var id := s.clients[c].held[Storing];
    assert Placed(s.root, s.disk.tree, s.locks[id]) && LockHolds(s, id);
  }

  lemma CloseQuiet(s: State, c: ClientId)
    requires Inv(s) && ContentInv(s) && c in s.clients && s.clients[c].mode != Upload && Inv(Close(s, c))
    ensures ContentInv(Close(s, c))
  {
    var e := Disconnect(c);
    var s' := Close(s, c);
    NoStore(s, c);
    assert s' == Step(s, e);
    hide Inv, ContentInv, Step;
    forall h | h in s.locks && s.locks[h].payload.Store? ensures h in s'.locks && s'.locks[h] == s.locks[h] {
      UploaderKept(s, e, h);
    }
    forall h | h in s'.locks && s'.locks[h].payload.Store? ensures h in s.locks && s'.locks[h] == s.locks[h] {
      LockBefore(s, e, h);
    }
    SelfConf(s);
    FrameHolds(s, s');
  }

  lemma CloseRecord(s: State, c: ClientId)
    requires Inv(s) && ContentInv(s) && Receives(s, c) && Inv(Close(s, c))
    ensures ContentInv(Close(s, c))
  {
    var s', t, h := Close(s, c), TokenOf(s, c), FileOf(s, c);
    assert LockHolds(s, h) && ConfOk(s.root, s.disk.tree);
    assert s' == Step(s, Disconnect(c));
    hide Inv, Step, Close, ContentInv, Receives, TokenOf, FileOf, BackedUp, Touches, RecordOf, ConfOk;
    hide LocksKept, SameConf, SparesOthers, OldHandle, RecordHolds, LockHolds, OnlyHandle, NoHandleAt;
    OneStore(s, c);
    OwnHandleOnly(s, c, h, t.stem);
    LocksSpared(s, Disconnect(c), t.stem);
    BackedUpTouches(s.root, s.disk, t, h);
    CloseDisk(s, c);
    CloseOwners(s, c);
    TouchesParts(s.root, s.disk, s'.disk, t.stem);
    CloseSparesOthers(s, s', c, h, t.stem);
    RecordTakesOver(s, s', c);
    CloseHandles(s, s', c, h);
    OthersHold(s, s', c, t.stem);
  }

  lemma RecordTakesOver(s: State, s': State, c: ClientId)
    requires Receives(s, c) && LockHolds(s, FileOf(s, c)) && s'.root == s.root && s'.intent == s.intent
    requires var t, p := TokenOf(s, c), PartialPath(s.root, TokenOf(s, c).stem);
      && RecordOf(s'.disk, s.root, t.stem) == Some(Record(t.path, t.size, t.offset))
      && (p in s.disk.tree ==> p in s'.disk.tree && s'.disk.tree[p] == s.disk.tree[p])
    ensures RecordHolds(s', TokenOf(s, c).stem)
  {
    hide RecordOf;
  }

  lemma CloseSparesOthers(s: State, s': State, c: ClientId, h: TokenId, user: User)
    requires LocksKept(s, s', c, user) && s'.root == s.root && s'.intent == s.intent
    requires SameConf(s.root, s.disk, s'.disk, Temporary(s.root, user)) && ConfOk(s.root, s'.disk.tree)
    requires s'.disk.open == s.disk.open - {h} && h in s.locks && s.locks[h].owner == c
    ensures SparesOthers(s, s', c, user)
  {
    hide SameConf, ConfOk;
  }

  lemma CloseHandles(s: State, s': State, c: ClientId, h: TokenId)
    requires ContentInv(s) && s'.disk.open == s.disk.open - {h}
    requires forall k <- s.locks :: s.locks[k].payload.Store? && s.locks[k].owner == c ==> k == h
    ensures forall k <- s'.disk.open :: OldHandle(s, s', c, k)
  {
    hide ConfOk, RecordHolds, LockHolds;
    forall k | k in s'.disk.open ensures OldHandle(s, s', c, k) { assert HandleHolds(s, k); }
  }

  lemma CloseOwners(s: State, c: ClientId)
    requires c in s.clients && Inv(Close(s, c))
    ensures forall k <- Close(s, c).locks :: Close(s, c).locks[k].owner != c
  {
    hide Close;
    forall k | k in Close(s, c).locks ensures Close(s, c).locks[k].owner != c {
      assert LockOk(Close(s, c), k);
      CloseGone(s, c);
    }
  }

  lemma CloseGone(s: State, c: ClientId)
    requires c in s.clients
    ensures c !in Close(s, c).clients
  {
  }

  /** What bytes that continue the file do to c's upload. */
  ghost predicate Progresses(s: State, s': State, c: ClientId, bytes: string)
    requires Receives(s, c) && TokenOf(s, c).stem in s.intent
  {
    var r, t, h := Committed(s.disk, s.root, FileOf(s, c), TokenOf(s, c), bytes), TokenOf(s, c), FileOf(s, c);
    && s'.disk == r.disk && s'.root == s.root && s'.intent == s.intent && c in s'.clients
    && (r.token.Some? ==>
          && r.token.value == t.(offset := r.token.value.offset) && t.offset <= r.token.value.offset
          && Holds(r.disk, s.root, t.stem, s.intent[t.stem].source, r.token.value.offset)
          && Storing in s'.clients[c].held && s'.clients[c].held[Storing] == h && h in s'.locks
          && s'.locks[h] == s.locks[h].(payload := Store(t.size, r.token.value.offset, t.stem, true)))
    && (r.token.None? ==> s'.clients[c].mode != Upload)
    && r.disk.open == (if r.token.Some? && r.token.value.offset < t.size then s.disk.open else s.disk.open - {h})
    && Touches(s.root, s.disk, r.disk, t.stem) && RecordOf(r.disk, s.root, t.stem) == None
  }

  lemma DataProgresses(s: State, c: ClientId, bytes: string)
    requires Inv(s) && ContentInv(s) && Receives(s, c) && Honest(s, DoData(c, bytes))
    ensures LockHolds(s, FileOf(s, c)) && Progresses(s, Data(s, c, bytes), c, bytes)
  {
    hide Inv, ContentInv, Data, Committed, Touches, ConfOk, OnlyHandle, NoHandleAt, RecordOf, Holds, Writing;
    hide LockHolds, Receives, TokenOf, FileOf, Honest;
    var t, h := TokenOf(s, c), FileOf(s, c);
    TokenHolds(s, c, bytes);
    InvParts(s);
    DataShape(s, c, bytes);
    OneStore(s, c);
    OwnHandleOnly(s, c, h, t.stem);
    CommittedTouches(s.root, s.disk, h, t, bytes);
    CommittedToken(s.disk, s.root, h, t, bytes);
    CommittedHolds(s.disk, s.root, h, t, bytes, s.intent[t.stem].source);
  }

  /** The invariant, for the upload of c. */
  lemma TokenHolds(s: State, c: ClientId, bytes: string)
    requires Inv(s) && ContentInv(s) && Receives(s, c) && Honest(s, DoData(c, bytes))
    ensures ConfOk(s.root, s.disk.tree) && LockHolds(s, FileOf(s, c))
    ensures var t, h := TokenOf(s, c), FileOf(s, c);
      && !Inside(s.root, t.path) && t.stem in s.intent && h in s.locks
      && (s.locks[h].payload.Store? ==> s.locks[h].payload.stem == t.stem)
      && t.path == s.intent[t.stem].path && t.size == |s.intent[t.stem].source|
      && Holds(s.disk, s.root, t.stem, s.intent[t.stem].source, t.offset)
      && (t.offset < t.size ==> Writing(s.disk, s.root, h, t.stem))
      && RecordOf(s.disk, s.root, t.stem) == None
      && Continues(bytes, s.intent[t.stem].source, t.offset)
  {
    assert LockHolds(s, FileOf(s, c));
    TokenPlaced(s, c);
  }

  /** More bytes of the file arrive. */
  lemma DataHolds(s: State, c: ClientId, bytes: string)
    requires Inv(s) && ContentInv(s) && Receives(s, c) && Honest(s, DoData(c, bytes))
    ensures ContentInv(Data(s, c, bytes))
  {
    var e, t, h := DoData(c, bytes), TokenOf(s, c), FileOf(s, c);
    var s' := Step(s, e);
    assert s' == Data(s, c, bytes);
    StepKeeps(s, e);
    hide Inv, Step, Data, ContentInv, Receives, TokenOf, FileOf, Committed, Touches, RecordOf, ConfOk;
    hide LocksKept, SameConf, SparesOthers, OldHandle, RecordHolds, OnlyHandle, NoHandleAt, Holds;
    DataProgresses(s, c, bytes);
    OneStore(s, c);
    LocksSpared(s, e, t.stem);
    TouchesParts(s.root, s.disk, s'.disk, t.stem);
    DataSpares(s, s', c, h, t.stem);
    NoRecord(s', t.stem);
    DataHandles(s, s', c, bytes);
    DataOwnLock(s, s', c, bytes);
    OthersHold(s, s', c, t.stem);
  }

  lemma NoRecord(s: State, user: User)
    requires RecordOf(s.disk, s.root, user) == None
    ensures RecordHolds(s, user)
  {
  }

  lemma DataShape(s: State, c: ClientId, bytes: string)
    requires Receives(s, c) && LockInv(s)
    ensures var s', r, h := Data(s, c, bytes), Committed(s.disk, s.root, FileOf(s, c), TokenOf(s, c), bytes), FileOf(s, c);
      && s'.disk == r.disk && s'.root == s.root && s'.intent == s.intent && c in s'.clients
      && (r.token.Some? ==>
            && Storing in s'.clients[c].held && s'.clients[c].held[Storing] == h && h in s'.locks
            && s'.locks[h] == s.locks[h].(payload := Store(r.token.value.size, r.token.value.offset, r.token.value.stem, true)))
      && (r.token.None? ==> s'.clients[c].mode != Upload)
      && (r.token.Some? ==> r.token.value == TokenOf(s, c).(offset := r.token.value.offset))
  {
    CommittedToken(s.disk, s.root, FileOf(s, c), TokenOf(s, c), bytes);
    hide Committed, LockInv;
  }

  lemma DataSpares(s: State, s': State, c: ClientId, h: TokenId, user: User)
    requires LocksKept(s, s', c, user) && s'.root == s.root && s'.intent == s.intent
    requires SameConf(s.root, s.disk, s'.disk, Temporary(s.root, user)) && ConfOk(s.root, s'.disk.tree)
    requires (s'.disk.open == s.disk.open || s'.disk.open == s.disk.open - {h}) && h in s.locks && s.locks[h].owner == c
    ensures SparesOthers(s, s', c, user)
  {
    hide SameConf, ConfOk, LocksKept;
  }

  lemma DataHandles(s: State, s': State, c: ClientId, bytes: string)
    requires ContentInv(s) && Receives(s, c) && LockHolds(s, FileOf(s, c)) && Progresses(s, s', c, bytes)
    requires forall k <- s.locks :: s.locks[k].payload.Store? && s.locks[k].owner == c ==> k == FileOf(s, c)
    ensures forall k <- s'.disk.open :: OldHandle(s, s', c, k) || HandleHolds(s', k)
  {
    hide ConfOk, RecordHolds, LockHolds, Committed, Touches, RecordOf;
    forall k | k in s'.disk.open ensures OldHandle(s, s', c, k) || HandleHolds(s', k) { assert HandleHolds(s, k); }
  }

  lemma DataOwnLock(s: State, s': State, c: ClientId, bytes: string)
    requires Inv(s') && Receives(s, c) && LockHolds(s, FileOf(s, c)) && Progresses(s, s', c, bytes)
    ensures forall k <- s'.locks :: s'.locks[k].owner == c ==> LockHolds(s', k)
  {
    hide Inv, Committed, RecordOf, Holds, Touches;
    var r := Committed(s.disk, s.root, FileOf(s, c), TokenOf(s, c), bytes);
    if r.token.Some? { OwnStore(s', c); } else { NoStore(s', c); }
  }

  // ---------- every honest run ----------

  lemma HonestStep(s: State, e: Event)
    requires Inv(s) && ContentInv(s) && Honest(s, e) && !Tampers(s, e)
    ensures ContentInv(Step(s, e))
  {
    hide Inv, ContentInv, Tampers, Honest, Ul, UlRetry, Data, Close;
    match e
    case DoUl(c, name, source, fits) => if Ready(s, c) && Component(name) { UlHolds(s, c, name, source, fits); }
    case DoUlRetry(c, fits) => if Ready(s, c) { UlRetryHolds(s, c, fits); }
    case DoData(c, bytes) => if Receives(s, c) { DataHolds(s, c, bytes); }
    case Disconnect(c) => if c in s.clients { CloseHolds(s, c); }
    case _ => QuietKeeps(s, e);
  }

  /** With any chunks, disconnections and retries. */
  lemma {:induction false} HonestRunKeeps(s: State, events: seq<Event>)
    requires Inv(s) && ContentInv(s) && HonestRun(s, events)
    ensures Inv(Run(s, events)) && ContentInv(Run(s, events))
    decreases |events|
  {
    hide Inv, ContentInv, Step, Honest, Tampers;
    if events != [] {
      StepKeeps(s, events[0]);
      HonestStep(s, events[0]);
      HonestRunKeeps(Step(s, events[0]), events[1..]);
    }
  }

  /** When an upload ends, its temporary file is gone, the destination is exactly the file
      meant, where it was meant to be, and nothing else in the tree has changed. */
  lemma FinishExact(s: State, c: ClientId, bytes: string)
    requires Inv(s) && ContentInv(s) && Receives(s, c) && Honest(s, DoData(c, bytes))
    ensures c in Data(s, c, bytes).clients && TokenOf(s, c).stem in s.intent
    ensures Data(s, c, bytes).clients[c].mode != Upload ==>
      var t := TokenOf(s, c);
      var meant := s.intent[t.stem];
      Data(s, c, bytes).disk.tree == (s.disk.tree - {PartialPath(s.root, t.stem)})[meant.path := File(meant.source)]
  {
    var t, h := TokenOf(s, c), FileOf(s, c);
    assert LockHolds(s, h);
    TokenPlaced(s, c);
    CommittedHolds(s.disk, s.root, h, t, bytes, s.intent[t.stem].source);
    hide Inv, ContentInv, Committed;
  }

  lemma InitialContent(root: Path, tree: Tree)
    requires ConfOk(root, tree) && forall u: User :: RecordOf(Disk(tree, map[]), root, u) == None
    ensures ContentInv(Initial(root, tree))
  {
  }

  /** Over any run of the server in which clients send what they mean to send and nobody
      tampers with the configuration directory, with any chunks, disconnections and retries
      before: when an upload ends, the destination its user asked for is exactly the file
      meant and nothing else outside the configuration directory has changed. */
  lemma FinishedUploadIsExact(root: Path, tree: Tree, events: seq<Event>, c: ClientId, bytes: string)
    requires DiskOk(root, Disk(tree, map[])) && ConfOk(root, tree)
    requires forall u: User :: RecordOf(Disk(tree, map[]), root, u) == None
    requires HonestRun(Initial(root, tree), events)
    requires var s := Run(Initial(root, tree), events); Receives(s, c) && Honest(s, DoData(c, bytes))
    ensures var s := Run(Initial(root, tree), events);
      var t, s' := TokenOf(s, c), Step(s, DoData(c, bytes));
      && t.stem in s.intent && c in s'.clients
      && (s'.clients[c].mode != Upload ==>
            var meant := s.intent[t.stem];
            s'.disk.tree == (s.disk.tree - {PartialPath(s.root, t.stem)})[meant.path := File(meant.source)])
  {
    hide Inv, ContentInv, HonestRun, Honest, Run, Data, RecordOf, DiskOk;
    InitialInv(root, tree);
    InitialContent(root, tree);
    HonestRunKeeps(Initial(root, tree), events);
    FinishExact(Run(Initial(root, tree), events), c, bytes);
  }
}
