/** What clients can rely on, in every run of the server. */
module ServerTheorems {
  import opened Options
  import opened Paths
  import opened Disks
  import opened Uploads
  import opened ProtocolMode
  import opened ServerState
  import opened ServerSafety
  import opened ServerRuns
  import Copy

  // ---------- locked things stay ----------

  /** What a live lock protects: a current directory, a file to be sent, the parent of an
      upload's destination. */
  ghost function Anchor(lock: Lock): Path
    requires lock.role == Storing ==> lock.path != []
  {
    if lock.role == Storing then Parent(lock.path) else lock.path
  }

  lemma AnchorExists(s: State, id: TokenId)
    requires TreeInv(s) && id in s.locks
    ensures s.locks[id].role == Storing ==> s.locks[id].path != []
    ensures Anchor(s.locks[id]) in s.disk.tree && !Inside(s.root, Anchor(s.locks[id]))
  {
    hide DiskOk;
    var lock := s.locks[id];
    assert Placed(s.root, s.disk.tree, lock);
    if lock.role == Storing { assert Inside(s.root, Parent(lock.path)) ==> Inside(s.root, lock.path); }
  }

  /** A path that is not locked is neither the anchor of a live lock nor above it. */
  lemma AnchorFree(s: State, id: TokenId, p: Path)
    requires LockInv(s) && TreeInv(s) && id in s.locks
    requires p in s.disk.tree && p != [] && !IsLocked(s, p)
    ensures s.locks[id].role == Storing ==> s.locks[id].path != []
    ensures !(p <= Anchor(s.locks[id]))
  {
    hide LockInv, TreeInv, IsLocked;
    AnchorExists(s, id);
    UnlockedIsFree(s, p, id);
    var path := s.locks[id].path;
    assert path != [] && p <= Parent(path) ==> p <= path;
  }

  // ---------- what upload bytes do to the tree ----------

  /** The disk once the bytes that are still missing have been written. */
  function Filled(s: State, c: ClientId, bytes: string): Disk
    requires Receives(s, c)
  {
    var t := TokenOf(s, c);
    var missing := t.size - t.offset;
    Written(s.disk, FileOf(s, c), bytes[..if |bytes| < missing then |bytes| else missing])
  }

  /** The upload ends with these bytes and its temporary file is put in place. */
  predicate Finishes(s: State, c: ClientId, bytes: string)
    requires Receives(s, c)
  {
    var t := TokenOf(s, c);
    |bytes| >= t.size - t.offset && Renamable(Filled(s, c, bytes).tree, PartialPath(s.root, t.stem), t.path)
  }

  /** These upload bytes change the file at p: they finish the upload there with something
      else than was there, or p is where the upload's temporary file has been moved to. */
  predicate Changes(s: State, c: ClientId, bytes: string, p: Path)
    requires Receives(s, c) && p in s.disk.tree
  {
    var t, h := TokenOf(s, c), FileOf(s, c);
    if p == t.path && Finishes(s, c, bytes)
    then Filled(s, c, bytes).tree[PartialPath(s.root, t.stem)] != s.disk.tree[p]
    else h in s.disk.open && s.disk.open[h] == p && bytes != "" && t.offset < t.size
  }

  predicate Overwrites(s: State, e: Event, p: Path) {
    e.DoData? && Receives(s, e.c) && p in s.disk.tree && Changes(s, e.c, e.bytes, p)
  }

  lemma WrittenExact(d: Disk, h: Handle, bytes: string, p: Path)
    requires p in d.tree
    ensures var d' := Written(d, h, bytes);
      && p in d'.tree
      && (d'.tree[p] == d.tree[p] <==> !(h in d.open && d.open[h] == p && bytes != ""))
  {
  }

  lemma DataDisk(s: State, c: ClientId, bytes: string)
    requires Receives(s, c)
    ensures var t, d := TokenOf(s, c), Filled(s, c, bytes);
      Data(s, c, bytes).disk.tree ==
        if Finishes(s, c, bytes) then Replaced(d, PartialPath(s.root, t.stem), t.path).tree else d.tree
  {
    hide Written, Renamable;
  }

  /** Exactly when upload bytes leave an entry outside the configuration directory alone. */
  lemma DataExact(s: State, c: ClientId, bytes: string, p: Path)
    requires TreeInv(s) && LockInv(s) && Receives(s, c) && p in s.disk.tree && !Inside(s.root, p)
    ensures var t' := Data(s, c, bytes).disk.tree;
      && p in t' && (t'[p] == s.disk.tree[p] <==> !Changes(s, c, bytes, p))
      && (Changes(s, c, bytes, p) ==> IsFile(s.disk.tree, p) && IsFile(t', p))
  {
    hide TreeInv, LockInv, Filled, Data, Replaced, Receives, TokenOf, FileOf, IsFile, IsDir, Inside;
    var t, d := TokenOf(s, c), Filled(s, c, bytes);
    TemporaryInside(s.root, t.stem);
    FilledExact(s, c, bytes, p);
    FilledKind(s, c, bytes, p);
    DataDisk(s, c, bytes);
    if Finishes(s, c, bytes) { ReplacedExact(d, PartialPath(s.root, t.stem), t.path, p); }
  }

  lemma ReplacedExact(d: Disk, src: Path, dest: Path, p: Path)
    requires IsFile(d.tree, src) && p in d.tree && p != src && !IsDir(d.tree, dest)
    ensures var t := Replaced(d, src, dest).tree;
      && p in t && t[p] == (if p == dest then d.tree[src] else d.tree[p])
      && IsFile(t, p) == IsFile(d.tree, p) && IsDir(t, p) == IsDir(d.tree, p)
  {
  }

  lemma FilledExact(s: State, c: ClientId, bytes: string, p: Path)
    requires Receives(s, c) && p in s.disk.tree
    ensures var t, h, d := TokenOf(s, c), FileOf(s, c), Filled(s, c, bytes);
      && p in d.tree
      && (d.tree[p] == s.disk.tree[p] <==> !(h in s.disk.open && s.disk.open[h] == p && bytes != "" && t.offset < t.size))
  {
    var t := TokenOf(s, c);
    var missing := t.size - t.offset;
    WrittenExact(s.disk, FileOf(s, c), bytes[..if |bytes| < missing then |bytes| else missing], p);
    hide Written;
  }

  lemma FilledKind(s: State, c: ClientId, bytes: string, p: Path)
    requires TreeInv(s) && Receives(s, c) && p in s.disk.tree
    ensures p in Filled(s, c, bytes).tree
    ensures var h := FileOf(s, c); h in s.disk.open && s.disk.open[h] == p ==> IsFile(s.disk.tree, p)
    ensures IsDir(Filled(s, c, bytes).tree, p) == IsDir(s.disk.tree, p)
    ensures IsFile(Filled(s, c, bytes).tree, p) == IsFile(s.disk.tree, p) == !IsDir(s.disk.tree, p)
  {
  }

  // ---------- every step ----------

  /** Still there, and the same unless overwritten; and then a file is now another file. */
  ghost predicate Stays(t: Tree, t': Tree, p: Path, overwritten: bool) {
    && p in t && p in t'
    && (t'[p] == t[p] <==> !overwritten)
    && (overwritten ==> IsFile(t, p) && IsFile(t', p))
  }

  /** No `rm`, `rename` or `mv`, by whatever client, removes or relocates a connected
      client's current directory, a file held by a live download token, or the parent of a
      live upload; nor does any other step. They change exactly when upload bytes overwrite
      a file. */
  lemma AnchorsStay(s: State, e: Event, id: TokenId)
    requires Inv(s) && id in s.locks
    ensures s.locks[id].role == Storing ==> s.locks[id].path != []
    ensures var p := Anchor(s.locks[id]); Stays(s.disk.tree, Step(s, e).disk.tree, p, Overwrites(s, e, p))
  {
    hide TreeInv, LockInv, AuthInv, CtxInv, Ready;
    AnchorExists(s, id);
    if e.DoRm? {
      RmSpares(s, e.c, e.name, id);
    } else if e.DoRename? {
      if Ready(s, e.c) && Component(e.oname) && Component(e.nname) {
        ReadyFacts(s, e.c);
        MoveSpares(s, e.c, e.oname, Cwd(s, e.c), e.nname, id);
        assert Cwd(s, e.c) + [e.oname] <= Cwd(s, e.c) + [e.nname] ==> Cwd(s, e.c) + [e.oname] == Cwd(s, e.c) + [e.nname];
      }
    } else if e.DoMv? {
      if Ready(s, e.c) && Component(e.name) { MoveSpares(s, e.c, e.name, e.dir, e.name, id); }
    } else {
      TreeUntouched(s, e, Anchor(s.locks[id]));
    }
  }

  lemma RmSpares(s: State, c: ClientId, name: string, id: TokenId)
    requires Inv(s) && id in s.locks
    ensures s.locks[id].role == Storing ==> s.locks[id].path != []
    ensures Stays(s.disk.tree, Step(s, DoRm(c, name)).disk.tree, Anchor(s.locks[id]), false)
  {
    hide TreeInv, LockInv, AuthInv, CtxInv, IsLocked;
    AnchorExists(s, id);
    if Ready(s, c) {
      var p := Cwd(s, c) + [name];
      if p in s.disk.tree && !IsLocked(s, p) { AnchorFree(s, id, p); }
    }
  }

  /** Two trees are the same outside the configuration directory. */
  ghost predicate SameOutside(root: Path, t: Tree, t': Tree) {
    forall p <- t :: !Inside(root, p) ==> p in t' && t'[p] == t[p]
  }

  lemma ForgottenOutside(d: Disk, root: Path, u: User)
    ensures SameOutside(root, d.tree, Forgotten(d, root, u).tree)
  {
    TemporaryInside(root, u);
  }

  lemma OpenedOutside(d: Disk, root: Path, h: Handle, t: Token)
    ensures SameOutside(root, d.tree, Opened(d, root, h, t).tree)
  {
    hide Forgotten;
    TemporaryInside(root, t.stem);
    var p := PartialPath(root, t.stem);
    var node := if t.offset != 0 && p in d.tree then d.tree[p] else File("");
    ForgottenOutside(Disk(d.tree[p := node], d.open[h := p]), root, t.stem);
  }

  lemma ReceiveOutside(s: State, c: ClientId, t: Token)
    requires c in s.clients
    ensures SameOutside(s.root, s.disk.tree, Receive(s, c, t).disk.tree)
  {
    hide Opened, Grant;
    OpenedOutside(s.disk, s.root, s.next, t);
  }

  lemma UploadStepOutside(s: State, e: Event)
    requires e.DoUl? || e.DoUlRetry? || e.Disconnect? || e.Connect?
    ensures SameOutside(s.root, s.disk.tree, Step(s, e).disk.tree)
  {
    hide Ready, Receives, MayUpload, Receive, RecordOf, Forgotten, SameOutside;
    SelfOutside(s.root, s.disk.tree);
    match e
    case DoUl(c, name, source, fits) =>
      if Ready(s, c) { UlOutside(s, c, name, source, fits); }
    case DoUlRetry(c, fits) => if Ready(s, c) { UlRetryOutside(s, c, fits); }
    case Disconnect(c) => if c in s.clients { CloseOutside(s, c); }
    case Connect(c) =>
  }

  lemma UlOutside(s: State, c: ClientId, name: string, source: string, fits: bool)
    requires Ready(s, c)
    ensures SameOutside(s.root, s.disk.tree, Ul(s, c, name, source, fits).disk.tree)
  {
    hide MayUpload, Receive;
    ReceiveOutside(s, c, Token(Cwd(s, c) + [name], |source|, 0, UserOf(s, c)));
  }

  lemma SelfOutside(root: Path, t: Tree)
    ensures SameOutside(root, t, t)
  {
  }

  lemma UlRetryOutside(s: State, c: ClientId, fits: bool)
    requires Ready(s, c)
    ensures SameOutside(s.root, s.disk.tree, UlRetry(s, c, fits).disk.tree)
  {
    hide MayUpload, Receive, RecordOf, Forgotten;
    var user := UserOf(s, c);
    var record := RecordOf(s.disk, s.root, user);
    if record.Some? {
      var r := record.value;
      ForgottenOutside(s.disk, s.root, user);
      ReceiveOutside(Forget(s, user), c, Token(r.path, r.size, r.offset, user));
    }
  }

  lemma CloseOutside(s: State, c: ClientId)
    requires c in s.clients
    ensures SameOutside(s.root, s.disk.tree, Close(s, c).disk.tree)
  {
    if Receives(s, c) { TemporaryInside(s.root, TokenOf(s, c).stem); }
  }

  /** The other steps add to the tree or leave it; upload bytes replace only files. */
  lemma TreeUntouched(s: State, e: Event, p: Path)
    requires Inv(s) && !e.DoRm? && !e.DoRename? && !e.DoMv? && p in s.disk.tree && !Inside(s.root, p)
    ensures Stays(s.disk.tree, Step(s, e).disk.tree, p, Overwrites(s, e, p))
  {
    hide TreeInv, LockInv, AuthInv, CtxInv, Receives, Data, Changes;
    if e.DoData? {
      if Receives(s, e.c) { DataExact(s, e.c, e.bytes, p); }
    } else if e.DoUl? || e.DoUlRetry? || e.Connect? || e.Disconnect? {
      UploadStepOutside(s, e);
    } else if e.DoCp? || e.DoMkdir? {
      AddsOnly(s, e, p);
    } else {
      StillMild(s, e);
    }
  }

  lemma AddsOnly(s: State, e: Event, p: Path)
    requires (e.DoCp? || e.DoMkdir?) && p in s.disk.tree
    ensures Stays(s.disk.tree, Step(s, e).disk.tree, p, false)
  {
    hide Ready, Stays;
    var t := s.disk.tree;
    match e
    case DoMkdir(c, name) => if Ready(s, c) { AddedStays(t, Cwd(s, c) + [name], Dir, p); } SelfStays(t, p);
    case DoCp(c, name, dir) =>
      if Ready(s, c) && Cwd(s, c) + [name] in t {
        AddedStays(t, Copy.CopyTarget(t, dir, name), t[Cwd(s, c) + [name]], p);
      }
      SelfStays(t, p);
  }

  lemma SelfStays(t: Tree, p: Path)
    requires p in t
    ensures Stays(t, t, p, false)
  {
  }

  lemma AddedStays(t: Tree, q: Path, node: Node, p: Path)
    requires p in t
    ensures q !in t ==> Stays(t, t[q := node], p, false)
  {
  }

  lemma MoveSpares(s: State, c: ClientId, name: string, dir: Path, target: string, id: TokenId)
    requires Inv(s) && Ready(s, c) && Component(name) && Component(target) && id in s.locks
    ensures var from, to, t := Cwd(s, c) + [name], dir + [target], s.disk.tree;
      from in t && IsDir(t, dir) && !IsLocked(s, from) && to !in t && !(from <= to) ==>
        && (s.locks[id].role == Storing ==> s.locks[id].path != [])
        && var p := Anchor(s.locks[id]); p in t && p in Moved(t, from, to) && Moved(t, from, to)[p] == t[p]
  {
    var from, to, t := Cwd(s, c) + [name], dir + [target], s.disk.tree;
    if from in t && IsDir(t, dir) && !IsLocked(s, from) && to !in t && !(from <= to) {
      assert WellFormed(t, s.root);
      hide TreeInv, LockInv, AuthInv, CtxInv, IsLocked, Moved;
      ReadyFacts(s, c);
      Below(dir, target);
      assert |from| > |s.root|;
      AnchorExists(s, id);
      AnchorFree(s, id, from);
      MovedKeeps(t, s.root, from, to, Anchor(s.locks[id]));
    }
  }

  // ---------- passwords ----------

  /** A third bad password kills the client, an earlier one does not; and the dead stay
      dead for as long as they are connected. */
  lemma ThirdFailureKills(s: State, c: ClientId, user: User)
    requires Inv(s) && c in s.clients && s.clients[c].mode == Command && s.clients[c].alive
    ensures var s' := Step(s, DoAuth(c, user, false));
      && c in s'.clients && s'.clients[c].failures == s.clients[c].failures + 1
      && (s'.clients[c].alive <==> s'.clients[c].failures <= 2)
  {
    assert CtxOk(s, c);
  }

  lemma DeadStayDead(s: State, e: Event, c: ClientId)
    requires c in s.clients && !s.clients[c].alive && c in Step(s, e).clients
    ensures !Step(s, e).clients[c].alive
  {
    if !e.Connect? && !e.Disconnect? { StepMild(s, e); }
  }

  // ---------- every reachable state ----------

  /** The name a client is logged in under, if any. */
  ghost function NameOf(s: State, c: ClientId): Option<User>
    requires c in s.clients
  {
    var auth := s.clients[c].auth;
    if auth.Some? && auth.value in s.auths then Some(s.auths[auth.value].user) else None
  }

  ghost predicate AnchorsSafe(s: State, e: Event) {
    forall id <- s.locks ::
      && (s.locks[id].role == Storing ==> s.locks[id].path != [])
      && var p := Anchor(s.locks[id]);
        Stays(s.disk.tree, Step(s, e).disk.tree, p, Overwrites(s, e, p))
  }

  ghost predicate NamesApart(s: State) {
    forall c, d | c in s.clients && d in s.clients && c != d && NameOf(s, c).Some? :: NameOf(s, c) != NameOf(s, d)
  }

  /** Who is in upload mode has a token for the temporary file of its own name. */
  ghost predicate WritesOwn(s: State, c: ClientId)
    requires c in s.clients
  {
    s.clients[c].mode == Upload ==>
      && Storing in s.clients[c].held && s.clients[c].held[Storing] in s.locks
      && var payload := s.locks[s.clients[c].held[Storing]].payload;
        payload.Store? && NameOf(s, c) == Some(payload.stem)
  }

  lemma ClientsSafe(s: State)
    requires Inv(s)
    ensures NamesApart(s)
    ensures forall c <- s.clients :: WritesOwn(s, c) && TriesOk(s.clients[c])
  {
    forall c, d | c in s.clients && d in s.clients && c != d && NameOf(s, c).Some?
      ensures NameOf(s, c) != NameOf(s, d)
    {
      if NameOf(s, d).Some? { OneClientPerUser(s, c, d); }
    }
    forall c | c in s.clients ensures WritesOwn(s, c) && TriesOk(s.clients[c]) {
      assert CtxOk(s, c);
    }
  }

  /** After every run of any number of clients and whatever happens next: nothing a client
      relies on is pulled away, a file it relies on changes exactly when upload bytes
      overwrite it, no two clients go by the same name, and who is alive has failed fewer
      than three times. */
  lemma EveryRunIsSafe(root: Path, tree: Tree, events: seq<Event>, e: Event)
    requires DiskOk(root, Disk(tree, map[]))
    ensures var s := Run(Initial(root, tree), events);
      && AnchorsSafe(s, e) && NamesApart(s)
      && (forall c <- s.clients :: WritesOwn(s, c) && TriesOk(s.clients[c]))
  {
    hide Inv, Run, Step, DiskOk, Overwrites;
    var s := Run(Initial(root, tree), events);
    InitialInv(root, tree);
    RunKeeps(Initial(root, tree), events);
    ClientsSafe(s);
    forall id | id in s.locks
      ensures s.locks[id].role == Storing ==> s.locks[id].path != []
      ensures var p := Anchor(s.locks[id]); Stays(s.disk.tree, Step(s, e).disk.tree, p, Overwrites(s, e, p))
    {
      AnchorsStay(s, e, id);
    }
  }
}
