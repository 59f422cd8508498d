/** Runs of the server in which an expectation fails, one concrete run each. */
module Scenarios {
  import opened Options
  import opened Paths
  import opened Disks
  import opened Uploads
  import opened ServerState
  import opened ServerSafety
  import opened ServerRuns
  import opened ServerTheorems
  import opened UploadTheorems
  import opened RetryTheorems
  import opened CommandEffects

  // ---------- steps, as far as the runs need them ----------

  lemma {:induction false} RunAppend(s: State, a: seq<Event>, b: seq<Event>)
    ensures Run(s, a + b) == Run(Run(s, a), b)
    decreases |a|
  {
    if a == [] {
      assert a + b == b;
    } else {
      assert (a + b)[0] == a[0] && (a + b)[1..] == a[1..] + b;
      RunAppend(Step(s, a[0]), a[1..], b);
    }
  }

  lemma RunOne(s: State, e: Event)
    ensures Run(s, [e]) == Step(s, e)
  {
    assert [e][1..] == [];
    assert Run(Step(s, e), []) == Step(s, e);
  }

  lemma RunPush(s: State, events: seq<Event>, e: Event)
    ensures Run(s, events + [e]) == Step(Run(s, events), e)
  {
    RunAppend(s, events, [e]);
    RunOne(Run(s, events), e);
  }

  /** A client that has just logged in. */
  ghost predicate AtRoot(s: State, c: ClientId, user: User) {
    && Ready(s, c) && Cwd(s, c) == s.root && UserOf(s, c) == user
    && s.clients[c].held.Keys == {WorkDir}
  }

  ghost predicate Joined(s: State, s': State, c: ClientId) {
    && s'.disk == s.disk && s'.intent == s.intent && s'.root == s.root
    && s'.clients.Keys == s.clients.Keys + {c}
    && (forall d <- s.clients :: d != c ==> s'.clients[d] == s.clients[d])
    && (forall id <- s.locks :: id in s'.locks && s'.locks[id] == s.locks[id])
    && (forall id <- s'.locks :: id in s.locks || s'.locks[id].path == s.root)
    && (forall id <- s.auths :: id in s'.auths && s'.auths[id] == s.auths[id])
  }

  lemma LoginFacts(s: State, c: ClientId, user: User)
    requires Inv(s) && c !in s.clients && UserName(user) && forall id <- s.auths :: s.auths[id].user != user
    ensures var s' := Step(Step(s, Connect(c)), DoAuth(c, user, true)); Joined(s, s', c) && AtRoot(s', c, user)
  {
    hide Inv;
    NewNumbers(s);
    var s1 := SetCtx(s, c, NEW_CLIENT);
    assert Step(s, Connect(c)) == s1;
    hide Step, AtRoot, NameTaken, UserName;
    NotTaken(s1, user);
    EntersAlone(s1, c, user);
    JoinedFrom(s, s1, Step(s1, DoAuth(c, user, true)), c);
  }

  lemma JoinedFrom(s: State, s1: State, s': State, c: ClientId)
    requires s1 == SetCtx(s, c, NEW_CLIENT) && c !in s.clients && Joined(s1, s', c)
    ensures Joined(s, s', c)
  {
  }

  lemma NewNumbers(s: State)
    requires Inv(s)
    ensures s.next !in s.auths && s.next + 1 !in s.locks && s.next !in s.locks
  {
    forall id | id in s.auths ensures id < s.next { assert AuthOk(s, id); }
    forall id | id in s.locks ensures id < s.next { assert LockOk(s, id); }
  }

  lemma NotTaken(s: State, user: User)
    requires forall id <- s.auths :: s.auths[id].user != user
    ensures !NameTaken(Swept(s), user)
  {
  }

  lemma EntersAlone(s: State, c: ClientId, user: User)
    requires c in s.clients && s.clients[c] == NEW_CLIENT && UserName(user) && !NameTaken(Swept(s), user)
    requires s.next !in s.auths && s.next + 1 !in s.locks
    ensures var s' := Step(s, DoAuth(c, user, true)); Joined(s, s', c) && AtRoot(s', c, user)
  {
    hide Sweep, NameTaken, Grant, UserName;
    var s2 := LoggedIn(ListedAuth(Swept(s)), c, user, s.next);
    assert Step(s, DoAuth(c, user, true)) == Grant(s2, c, WorkDir, s.root, Plain);
    hide Step;
    FreshGrant(s2, c);
  }

  /** A current directory for a client that holds nothing. */
  lemma FreshGrant(s: State, c: ClientId)
    requires c in s.clients && s.clients[c].held == map[] && s.next !in s.locks
    ensures var s' := Grant(s, c, WorkDir, s.root, Plain);
      && s'.locks == s.locks[s.next := Lock(s.root, c, WorkDir, Plain)]
      && s'.clients == s.clients[c := s.clients[c].(held := map[WorkDir := s.next])]
      && s'.disk == s.disk && s'.intent == s.intent && s'.root == s.root && s'.auths == s.auths
  {
    hide Sweep;
  }

  lemma UlFacts(s: State, c: ClientId, name: string, source: string)
    requires Inv(s) && Ready(s, c) && Component(name) && !IsHeld(s, Cwd(s, c) + [name])
    requires Cwd(s, c) + [name] !in s.disk.tree && Openable(s.disk.tree, s.root, UserOf(s, c))
    ensures var s', path, user := Step(s, DoUl(c, name, source, true)), Cwd(s, c) + [name], UserOf(s, c);
      && Receives(s', c) && TokenOf(s', c) == Token(path, |source|, 0, user) && FileOf(s', c) == s.next
      && s'.disk == Opened(s.disk, s.root, s.next, TokenOf(s', c)) && s'.root == s.root
      && s'.intent == s.intent[user := Intent(path, source)]
      && s'.clients.Keys == s.clients.Keys
  {
    hide TreeInv, LockInv, AuthInv, CtxInv, Receive, Opened, Openable, IsHeld;
    ReadyFacts(s, c);
    Below(Cwd(s, c), name);
    ReceiveToken(s, c, Token(Cwd(s, c) + [name], |source|, 0, UserOf(s, c)));
    UlMild(s, c, name, source, true);
  }

  /** Some bytes, but not all that are missing. */
  lemma PartFacts(s: State, c: ClientId, bytes: string)
    requires Receives(s, c) && |bytes| < TokenOf(s, c).size - TokenOf(s, c).offset
    ensures var s', t := Step(s, DoData(c, bytes)), TokenOf(s, c);
      && Receives(s', c) && TokenOf(s', c) == t.(offset := t.offset + |bytes|) && FileOf(s', c) == FileOf(s, c)
      && s'.disk == Written(s.disk, FileOf(s, c), bytes) && s'.root == s.root && s'.intent == s.intent
      && s'.clients.Keys == s.clients.Keys
  {
    assert bytes[..|bytes|] == bytes;
    hide Written;
  }

  lemma LeaveFacts(s: State, c: ClientId)
    requires c in s.clients
    ensures var s' := Step(s, Disconnect(c));
      && s'.disk == ClosedDisk(s, c) && s'.root == s.root && s'.intent == s.intent && s'.clients.Keys == s.clients.Keys - {c}
  {
    CloseDisk(s, c);
  }

  /** Nobody connected means nobody logged in and nothing locked. */
  lemma Deserted(s: State)
    requires Inv(s) && s.clients.Keys == {}
    ensures s.auths.Keys == {} && s.locks.Keys == {}
  {
    hide Inv;
    Owned(s);
  }

  lemma Owned(s: State)
    requires Inv(s)
    ensures forall id <- s.auths :: s.auths[id].owner in s.clients.Keys
    ensures forall id <- s.locks :: s.locks[id].owner in s.clients.Keys
  {
    forall id | id in s.auths ensures s.auths[id].owner in s.clients.Keys { assert AuthOk(s, id); }
    forall id | id in s.locks ensures s.locks[id].owner in s.clients.Keys { assert LockOk(s, id); }
  }

  /** A lone client with nothing but its current directory: nothing below is locked. */
  lemma AloneUnlocked(s: State, c: ClientId, name: string)
    requires Inv(s) && Ready(s, c) && s.clients.Keys == {c} && s.clients[c].held.Keys == {WorkDir} && Component(name)
    ensures !IsLocked(s, Cwd(s, c) + [name]) && !IsHeld(s, Cwd(s, c) + [name])
  {
    var p := Cwd(s, c) + [name];
    ReadyFacts(s, c);
    Below(Cwd(s, c), name);
    forall id | id in s.locks ensures s.locks[id].path == Cwd(s, c) && !Covers(s.locks[id].path, p) {
      assert LockOk(s, id) && s.locks[id].owner == c;
      LockTestExact(Cwd(s, c), p);
    }
  }

  // ---------- an interrupted upload ----------

  const ROOT: Path := ["r"]
  const F: Path := ["r", "f"]
  const CONF: Path := ["r", ".tds"]
  const TREE: Tree := map[ROOT := Dir, CONF := Dir, ["r", "g"] := File("gg")]
  const ALICE: User := "alice"
  const RECORD := Record(F, 2, 1)

  /** Alice announces the file f with content "ab", sends "a" and is gone. */
  const INTERRUPTED: seq<Event> :=
    [Connect(0), DoAuth(0, ALICE, true), DoUl(0, "f", "ab", true), DoData(0, "a"), Disconnect(0)]

  lemma TreeOk()
    ensures DiskOk(ROOT, Disk(TREE, map[]))
  {
    assert Parent(CONF) == ROOT && Parent(["r", "g"]) == ROOT;
  }

  lemma Places()
    ensures Conf(ROOT) == CONF && ROOT + ["f"] == F
    ensures |PartialPath(ROOT, ALICE)| == 3 && |BackupPath(ROOT, ALICE)| == 3
    ensures PartialPath(ROOT, ALICE) !in TREE && BackupPath(ROOT, ALICE) !in TREE
    ensures PartialPath(ROOT, ALICE) != BackupPath(ROOT, ALICE)
  {
    assert Conf(ROOT) == CONF;
    TemporaryApart(ROOT, ALICE, ALICE);
  }

  /** Alice has sent "a", and bytes so far were honest. */
  ghost predicate Interrupted(s: State) {
    && Inv(s) && s.clients.Keys == {} && s.root == ROOT
    && ALICE in s.intent && s.intent[ALICE] == Intent(F, "ab")
    && s.disk.tree == TREE[PartialPath(ROOT, ALICE) := File("a")][BackupPath(ROOT, ALICE) := Notes(RECORD)]
  }

  ghost predicate AllHonest(s: State, events: seq<Event>)
    decreases |events|
  {
    events != [] ==> Honest(s, events[0]) && AllHonest(Step(s, events[0]), events[1..])
  }

  lemma {:induction false} HonestAppend(s: State, a: seq<Event>, b: seq<Event>)
    requires AllHonest(s, a) && AllHonest(Run(s, a), b)
    ensures AllHonest(s, a + b)
    decreases |a|
  {
    if a == [] {
      assert a + b == b;
    } else {
      assert (a + b)[0] == a[0] && (a + b)[1..] == a[1..] + b;
      HonestAppend(Step(s, a[0]), a[1..], b);
    }
  }

  lemma HonestPush(s: State, events: seq<Event>, e: Event)
    requires AllHonest(s, events) && Honest(Run(s, events), e)
    ensures AllHonest(s, events + [e])
  {
    assert [e][1..] == [];
    assert AllHonest(Step(Run(s, events), e), []);
    HonestAppend(s, events, [e]);
  }

  lemma Started()
    ensures var s := Run(Initial(ROOT, TREE), INTERRUPTED[..3]);
      Inv(s) && Begun(s, 0) && AllHonest(Initial(ROOT, TREE), INTERRUPTED[..3])
  {
    hide Inv, DiskOk, Step, Run, AllHonest, AtRoot, Joined, Begun;
    var s0 := Initial(ROOT, TREE);
    TreeOk();
    InitialInv(ROOT, TREE);
    Prefixes(s0);
    AloneAt(s0, 0, ALICE);
    var s2 := Step(Step(s0, Connect(0)), DoAuth(0, ALICE, true));
    JoinedFacts(s0, s2, 0, ALICE);
    StepKeeps(s2, DoUl(0, "f", "ab", true));
    BeginsUpload(s2);
  }

  /** A client logs in when nobody is connected. */
  lemma AloneAt(s: State, c: ClientId, user: User)
    requires Inv(s) && s.clients.Keys == {} && UserName(user)
    ensures var s' := Step(Step(s, Connect(c)), DoAuth(c, user, true));
      Inv(s') && Joined(s, s', c) && AtRoot(s', c, user) && s'.clients.Keys == {c}
  {
    hide Inv, Step, UserName, AtRoot;
    Deserted(s);
    StepKeeps(s, Connect(c));
    StepKeeps(Step(s, Connect(c)), DoAuth(c, user, true));
    LoginFacts(s, c, user);
  }

  /** The upload of f has begun. */
  ghost predicate Begun(s: State, c: ClientId) {
    && Receives(s, c) && TokenOf(s, c) == Token(F, 2, 0, ALICE) && s.root == ROOT && s.clients.Keys == {c}
    && ALICE in s.intent && s.intent[ALICE] == Intent(F, "ab")
    && FileOf(s, c) in s.disk.open && s.disk.open[FileOf(s, c)] == PartialPath(ROOT, ALICE)
    && s.disk.tree == TREE[PartialPath(ROOT, ALICE) := File("")]
  }

  lemma BeginsUpload(s: State)
    requires Inv(s) && Ready(s, 0) && Cwd(s, 0) == ROOT && UserOf(s, 0) == ALICE && s.clients[0].held.Keys == {WorkDir}
    requires s.clients.Keys == {0} && s.root == ROOT && s.disk.tree == TREE
    ensures Begun(Step(s, DoUl(0, "f", "ab", true)), 0)
  {
    hide Inv, Step, Openable, Opened, Receives, TokenOf, FileOf, Ready, Cwd, UserOf, IsHeld, IsLocked;
    NamesOk();
    AloneUnlocked(s, 0, "f");
    FreeAtStart(s.disk.tree);
    UlFacts(s, 0, "f", "ab");
    OpenedTree(s.disk, s.next);
  }

  lemma NamesOk()
    ensures UserName(ALICE) && UserName("bob") && Component("f") && Component("x") && Component(".tds")
    ensures Component("alice.partial") && Component("g")
  {
  }

  lemma JoinedFacts(s: State, s': State, c: ClientId, user: User)
    requires Joined(s, s', c) && AtRoot(s', c, user)
    ensures Ready(s', c) && Cwd(s', c) == s'.root && UserOf(s', c) == user && s'.clients[c].held.Keys == {WorkDir}
    ensures s'.disk == s.disk && s'.intent == s.intent && s'.root == s.root && s'.clients.Keys == s.clients.Keys + {c}
  {
  }

  lemma FreeAtStart(t: Tree)
    requires t == TREE
    ensures ROOT + ["f"] == F && F !in t && Openable(t, ROOT, ALICE)
  {
    Places();
  }

  lemma OpenedTree(d: Disk, h: Handle)
    requires d.tree == TREE
    ensures var d' := Opened(d, ROOT, h, Token(F, 2, 0, ALICE));
      d'.tree == TREE[PartialPath(ROOT, ALICE) := File("")] && h in d'.open && d'.open[h] == PartialPath(ROOT, ALICE)
  {
    Places();
    var d1 := Disk(d.tree[PartialPath(ROOT, ALICE) := File("")], d.open[h := PartialPath(ROOT, ALICE)]);
    assert BackupPath(ROOT, ALICE) !in d1.tree;
  }

  /** The first three events one by one. */
  lemma Prefixes(s: State)
    ensures Run(s, INTERRUPTED[..3]) ==
      Step(Step(Step(s, Connect(0)), DoAuth(0, ALICE, true)), DoUl(0, "f", "ab", true))
    ensures AllHonest(s, INTERRUPTED[..3])
  {
    hide Step;
    var a, b, c := Connect(0), DoAuth(0, ALICE, true), DoUl(0, "f", "ab", true);
    assert INTERRUPTED[..3] == [a] + [b] + [c];
    RunOne(s, a);
    RunPush(s, [a], b);
    RunPush(s, [a] + [b], c);
    assert AllHonest(s, []);
    assert [] + [a] == [a];
    HonestPush(s, [], a);
    HonestPush(s, [a], b);
    HonestPush(s, [a] + [b], c);
  }

  lemma UploadInterrupted()
    ensures Interrupted(Run(Initial(ROOT, TREE), INTERRUPTED)) && AllHonest(Initial(ROOT, TREE), INTERRUPTED)
  {
    hide Inv, Step, Run, AllHonest, Receives, TokenOf, FileOf, Honest;
    var s0, a, b := Initial(ROOT, TREE), DoData(0, "a"), Disconnect(0);
    Started();
    var s3 := Run(s0, INTERRUPTED[..3]);
    var s4 := Step(s3, a);
    var s5 := Step(s4, b);
    assert INTERRUPTED == INTERRUPTED[..3] + [a] + [b];
    RunPush(s0, INTERRUPTED[..3], a);
    RunPush(s0, INTERRUPTED[..3] + [a], b);
    PartIsHonest(s3, 0);
    HonestPush(s0, INTERRUPTED[..3], a);
    QuietIsHonest(s4, b);
    HonestPush(s0, INTERRUPTED[..3] + [a], b);
    StepKeeps(s3, a);
    StepKeeps(s4, b);
    PartFacts(s3, 0, "a");
    LeaveFacts(s4, 0);
    LeftRecord(s3, s4, 0);
  }

  lemma QuietIsHonest(s: State, e: Event)
    requires !e.DoData?
    ensures Honest(s, e)
  {
  }

  lemma PartIsHonest(s: State, c: ClientId)
    requires Receives(s, c) && TokenOf(s, c) == Token(F, 2, 0, ALICE) && ALICE in s.intent && s.intent[ALICE] == Intent(F, "ab")
    ensures Honest(s, DoData(c, "a"))
  {
  }

  lemma LeftRecord(s: State, s': State, c: ClientId)
    requires Receives(s, c) && Receives(s', c) && s.root == ROOT && s'.root == ROOT
    requires TokenOf(s', c) == Token(F, 2, 1, ALICE) && s'.disk == Written(s.disk, FileOf(s, c), "a")
    requires s.disk.tree == TREE[PartialPath(ROOT, ALICE) := File("")]
    requires FileOf(s, c) in s.disk.open && s.disk.open[FileOf(s, c)] == PartialPath(ROOT, ALICE)
    ensures ClosedDisk(s', c).tree == TREE[PartialPath(ROOT, ALICE) := File("a")][BackupPath(ROOT, ALICE) := Notes(RECORD)]
  {
    Places();
    assert "" + "a" == "a";
  }

  // ---------- tampering with the configuration directory ----------

  const X: Path := ["r", "x"]

  /** Bob moves the configuration directory away, removes Alice's partial file from it, and
      puts it back. */
  const TAMPERING: seq<Event> :=
    [Connect(1), DoAuth(1, "bob", true), DoRename(1, ".tds", "x"), DoCd(1, X), DoRm(1, "alice.partial"),
     DoCd(1, ROOT), DoRename(1, "x", ".tds"), Disconnect(1)]

  /** Alice comes back and sends what is missing. */
  const RESUMED: seq<Event> := [Connect(2), DoAuth(2, ALICE, true), DoUlRetry(2, true), DoData(2, "b")]

  /** A lone client in a directory. */
  ghost predicate Alone(s: State, c: ClientId, cwd: Path) {
    && Inv(s) && Ready(s, c) && s.clients.Keys == {c} && s.clients[c].held.Keys == {WorkDir} && Cwd(s, c) == cwd
    && s.root == ROOT
  }

  lemma AloneRenames(s: State, c: ClientId, cwd: Path, oname: string, nname: string)
    requires Alone(s, c, cwd) && Component(oname) && Component(nname) && oname != nname
    requires cwd + [oname] in s.disk.tree && cwd + [nname] !in s.disk.tree
    ensures var s' := Step(s, DoRename(c, oname, nname));
      Alone(s', c, cwd) && s' == SetDisk(s, Relocated(s.disk, cwd + [oname], cwd + [nname]))
  {
    var e := DoRename(c, oname, nname);
    hide Inv, IsLocked, IsHeld, Relocated;
    StepKeeps(s, e);
    AloneUnlocked(s, c, oname);
    LastName(cwd, oname, nname);
  }

  lemma AloneRemoves(s: State, c: ClientId, cwd: Path, name: string)
    requires Alone(s, c, cwd) && Component(name) && cwd + [name] in s.disk.tree
    ensures var s' := Step(s, DoRm(c, name));
      Alone(s', c, cwd) && s' == SetDisk(s, Erased(s.disk, cwd + [name]))
  {
    hide Inv, IsLocked, IsHeld, Erased;
    StepKeeps(s, DoRm(c, name));
    AloneUnlocked(s, c, name);
  }

  lemma AloneMoves(s: State, c: ClientId, cwd: Path, path: Path)
    requires Alone(s, c, cwd) && IsDir(s.disk.tree, path) && !Forbidden(s.root, path)
    ensures var s' := Step(s, DoCd(c, path)); Alone(s', c, path) && s'.disk == s.disk && s'.intent == s.intent
  {
    hide Inv, Forbidden;
    StepKeeps(s, DoCd(c, path));
  }

  lemma NotForbidden(p: Path)
    requires p == ROOT || p == X
    ensures !Forbidden(ROOT, p)
  {
    Places();
    assert Ordinary(CONF) && Ordinary(p);
    LockTestExact(p, CONF);
    assert p == X ==> CONF[1] == ".tds" && X[1] == "x" && |CONF[1]| > |X[1]|;
  }

  /** The disk after the three commands. */
  function Tampered(d: Disk): Disk {
    Relocated(Erased(Relocated(d, CONF, X), X + ["alice.partial"]), X, CONF)
  }

  /** What the runs need to know of the tree. */
  ghost predicate TreeFacts(t: Tree) {
    && WellFormed(t, ROOT) && IsDir(t, CONF) && X !in t && F !in t
    && PartialPath(ROOT, ALICE) in t && BackupPath(ROOT, ALICE) in t && t[BackupPath(ROOT, ALICE)] == Notes(RECORD)
  }

  lemma InterruptedTree(s: State)
    requires Interrupted(s)
    ensures TreeFacts(s.disk.tree)
  {
    Places();
    assert DiskOk(s.root, s.disk);
    hide Inv, DiskOk;
  }

  lemma Moves(t: Tree)
    requires TreeFacts(t)
    ensures Movable(t, ROOT, CONF, X)
  {
    assert Parent(X) == ROOT;
    assert Ordinary(X);
    assert |CONF[1]| != |X[1]|;
  }

  /** One entry of the configuration directory on its way to X. */
  lemma MovedEntry(t: Tree, name: string)
    requires TreeFacts(t)
    ensures var t' := Moved(t, CONF, X);
      (X + [name] in t' <==> CONF + [name] in t) && (CONF + [name] in t ==> t'[X + [name]] == t[CONF + [name]])
  {
    MovedExact(t, CONF, X, X + [name]);
    assert Rebased(X + [name], X, CONF) == CONF + [name];
    assert |(CONF + [name])[1]| != |X[1]|;
    NothingUnder(t, ROOT, X, X + [name]);
  }

  lemma MovedPlaces(t: Tree)
    requires TreeFacts(t)
    ensures var t' := Moved(t, CONF, X);
      && WellFormed(t', ROOT) && IsDir(t', X) && CONF !in t' && F !in t' && IsDir(t', ROOT)
      && (forall name :: CONF + [name] !in t')
  {
    Moves(t);
    MovedWellFormed(t, ROOT, CONF, X);
    MovedExact(t, CONF, X, X);
    assert Rebased(X, X, CONF) == CONF;
    MovedExact(t, CONF, X, CONF);
    MovedExact(t, CONF, X, F);
    forall name ensures CONF + [name] !in Moved(t, CONF, X) { MovedExact(t, CONF, X, CONF + [name]); }
  }

  /** One entry on its way back, unless it was removed in between. */
  lemma ReturnedEntry(t: Tree, name: string)
    requires TreeFacts(t)
    ensures var gone := X + ["alice.partial"];
      var t2 := Removed(Moved(t, CONF, X), gone);
      var t3 := Moved(t2, X, CONF);
      && (CONF + [name] in t3 <==> CONF + [name] in t && name != "alice.partial")
      && (CONF + [name] in t && name != "alice.partial" ==> t3[CONF + [name]] == t[CONF + [name]])
  {
    var gone := X + ["alice.partial"];
    var t1 := Moved(t, CONF, X);
    var t2 := Removed(t1, gone);
    MovedEntry(t, name);
    MovedPlaces(t);
    hide Moved, WellFormed;
    LastName(X, name, "alice.partial");
    assert gone <= X + [name] <==> gone == X + [name];
    MovedExact(t2, X, CONF, CONF + [name]);
    assert Rebased(CONF + [name], CONF, X) == X + [name];
  }

  lemma ReturnedPlaces(t: Tree)
    requires TreeFacts(t)
    ensures var t2 := Removed(Moved(t, CONF, X), X + ["alice.partial"]);
      var t3 := Moved(t2, X, CONF);
      && X in t2 && CONF !in t2 && IsDir(t2, ROOT) && IsDir(t3, CONF) && F !in t3 && IsDir(t3, ROOT)
  {
    var gone := X + ["alice.partial"];
    var t2 := Removed(Moved(t, CONF, X), gone);
    MovedPlaces(t);
    hide Moved, WellFormed;
    assert !(gone <= X) && !(gone <= ROOT);
    assert |CONF[1]| != |X[1]| && F[1][0] != X[1][0] && |F[1]| != |CONF[1]|;
    MovedExact(t2, X, CONF, CONF);
    assert Rebased(CONF, CONF, X) == X;
    MovedExact(t2, X, CONF, F);
    MovedExact(t2, X, CONF, ROOT);
  }

  lemma RunFrom(s: State, events: seq<Event>, k: nat)
    requires k < |events|
    ensures Run(s, events[k..]) == Run(Step(s, events[k]), events[k + 1..])
    ensures Honest(s, events[k]) && AllHonest(Step(s, events[k]), events[k + 1..]) ==> AllHonest(s, events[k..])
  {
    hide Step, Honest;
    assert events[k..][0] == events[k] && events[k..][1..] == events[k + 1..];
  }

  lemma RunEnd(s: State, events: seq<Event>)
    ensures Run(s, events[|events|..]) == s && AllHonest(s, events[|events|..])
  {
    hide Step, Honest;
  }

  /** The record is there and the partial file is not. */
  ghost predicate Robbed(s: State) {
    && Inv(s) && s.clients.Keys == {} && s.root == ROOT
    && ALICE in s.intent && s.intent[ALICE] == Intent(F, "ab")
    && IsDir(s.disk.tree, CONF) && IsDir(s.disk.tree, ROOT) && F !in s.disk.tree
    && RecordOf(s.disk, ROOT, ALICE) == Some(RECORD) && PartialPath(ROOT, ALICE) !in s.disk.tree
  }

  lemma TamperedDisk(d: Disk)
    requires TreeFacts(d.tree)
    ensures var t := Tampered(d).tree;
      && IsDir(t, CONF) && IsDir(t, ROOT) && F !in t
      && RecordOf(Tampered(d), ROOT, ALICE) == Some(RECORD) && PartialPath(ROOT, ALICE) !in t
  {
    Places();
    assert ALICE + ".partial" == "alice.partial";
    var upload := ALICE + ".upload";
    assert |upload| != |"alice.partial"|;
    ReturnedPlaces(d.tree);
    ReturnedEntry(d.tree, "alice.partial");
    ReturnedEntry(d.tree, upload);
    hide Moved, Removed, WellFormed;
  }

  lemma BobTampers(s: State)
    requires Alone(s, 1, ROOT) && TreeFacts(s.disk.tree)
    ensures var s3 := Step(s, DoRename(1, ".tds", "x"));
      var s4 := Step(s3, DoCd(1, X));
      var s5 := Step(s4, DoRm(1, "alice.partial"));
      var s6 := Step(s5, DoCd(1, ROOT));
      var s7 := Step(s6, DoRename(1, "x", ".tds"));
      Alone(s7, 1, ROOT) && s7.disk == Tampered(s.disk) && s7.intent == s.intent
  {
    hide Step, Alone, Relocated, Erased, Moved, Removed, Forbidden, WellFormed;
    NamesOk();
    Places();
    assert ROOT + [".tds"] == CONF && ROOT + ["x"] == X;
    AloneRoot(s, 1, ROOT);
    AloneRenames(s, 1, ROOT, ".tds", "x");
    var s3 := Step(s, DoRename(1, ".tds", "x"));
    RelocatedTree(s.disk, CONF, X);
    MovedPlaces(s.disk.tree);
    NotForbidden(X);
    NotForbidden(ROOT);
    AloneMoves(s3, 1, ROOT, X);
    var s4 := Step(s3, DoCd(1, X));
    MovedEntry(s.disk.tree, "alice.partial");
    assert CONF + ["alice.partial"] == PartialPath(ROOT, ALICE) by { assert ALICE + ".partial" == "alice.partial"; }
    AloneRemoves(s4, 1, X, "alice.partial");
    var s5 := Step(s4, DoRm(1, "alice.partial"));
    ErasedTree(s4.disk, X + ["alice.partial"]);
    ReturnedPlaces(s.disk.tree);
    AloneRoot(s5, 1, X);
    AloneMoves(s5, 1, X, ROOT);
    var s6 := Step(s5, DoCd(1, ROOT));
    AloneRenames(s6, 1, ROOT, "x", ".tds");
  }

  lemma AloneRoot(s: State, c: ClientId, cwd: Path)
    requires Alone(s, c, cwd)
    ensures s.root == ROOT
  {
  }

  lemma RelocatedTree(d: Disk, from: Path, to: Path)
    ensures Relocated(d, from, to).tree == Moved(d.tree, from, to)
  {
    hide Moved;
  }

  lemma ErasedTree(d: Disk, a: Path)
    ensures Erased(d, a).tree == Removed(d.tree, a)
  {
    hide Removed;
  }

  lemma BobComesAndGoes(s: State)
    requires Interrupted(s)
    ensures Robbed(Run(s, TAMPERING)) && AllHonest(s, TAMPERING)
  {
    hide Interrupted, Step, Honest, Run, AllHonest, AtRoot, Joined, Alone, Robbed, TreeFacts;
    var s1 := Step(s, TAMPERING[0]);
    var s2 := Step(s1, TAMPERING[1]);
    BobIn(s);
    BobTampers(s2);
    var s3 := Step(s2, TAMPERING[2]);
    var s4 := Step(s3, TAMPERING[3]);
    var s5 := Step(s4, TAMPERING[4]);
    var s6 := Step(s5, TAMPERING[5]);
    var s7 := Step(s6, TAMPERING[6]);
    var s8 := Step(s7, TAMPERING[7]);
    BobOut(s, s2, s7);
    EightEvents(s, s1, s2, s3, s4, s5, s6, s7, s8);
  }

  lemma BobIn(s: State)
    requires Interrupted(s)
    ensures var s2 := Step(Step(s, Connect(1)), DoAuth(1, "bob", true));
      Alone(s2, 1, ROOT) && s2.disk == s.disk && s2.intent == s.intent && TreeFacts(s.disk.tree)
  {
    hide Inv, Step, AtRoot, Joined, Ready, Cwd, UserOf, TreeFacts, UserName;
    NamesOk();
    AloneAt(s, 1, "bob");
    JoinedFacts(s, Step(Step(s, Connect(1)), DoAuth(1, "bob", true)), 1, "bob");
    InterruptedTree(s);
  }

  lemma BobOut(s: State, s2: State, s7: State)
    requires Interrupted(s) && TreeFacts(s.disk.tree) && s2.disk == s.disk
    requires Alone(s7, 1, ROOT) && s7.disk == Tampered(s.disk) && s7.intent == s.intent
    ensures Robbed(Step(s7, Disconnect(1)))
  {
    hide Inv, Step, Tampered, RecordOf, TreeFacts;
    StepKeeps(s7, Disconnect(1));
    LeaveFacts(s7, 1);
    ReadyDisk(s7, 1);
    TamperedDisk(s.disk);
  }

  lemma ReadyDisk(s: State, c: ClientId)
    requires Ready(s, c)
    ensures ClosedDisk(s, c) == s.disk
  {
  }

  lemma EightEvents(s0: State, s1: State, s2: State, s3: State, s4: State, s5: State, s6: State, s7: State, s8: State)
    requires s1 == Step(s0, TAMPERING[0]) && s2 == Step(s1, TAMPERING[1]) && s3 == Step(s2, TAMPERING[2])
    requires s4 == Step(s3, TAMPERING[3]) && s5 == Step(s4, TAMPERING[4]) && s6 == Step(s5, TAMPERING[5])
    requires s7 == Step(s6, TAMPERING[6]) && s8 == Step(s7, TAMPERING[7])
    ensures Run(s0, TAMPERING) == s8 && AllHonest(s0, TAMPERING)
  {
    hide Step, Run, AllHonest;
    RunEnd(s8, TAMPERING);
    RunFrom(s7, TAMPERING, 7);
    RunFrom(s6, TAMPERING, 6);
    RunFrom(s5, TAMPERING, 5);
    RunFrom(s4, TAMPERING, 4);
    RunFrom(s3, TAMPERING, 3);
    RunFrom(s2, TAMPERING, 2);
    RunFrom(s1, TAMPERING, 1);
    RunFrom(s0, TAMPERING, 0);
    assert TAMPERING[0..] == TAMPERING;
  }

  /** Alice's retry is answered with offset 1, she sends the rest, and f is not "ab". */
  lemma AliceResumes(s: State)
    requires Robbed(s)
    ensures var s' := Run(s, RESUMED); F in s'.disk.tree && TextOf(s'.disk.tree[F]) != "ab" && AllHonest(s, RESUMED)
  {
    hide Robbed, Back, Step, Honest, Run, AllHonest;
    AliceIn(s);
    AliceFinishes(Step(Step(s, Connect(2)), DoAuth(2, ALICE, true)));
    FourEvents(s);
  }

  lemma FourEvents(s: State)
    ensures var s2 := Step(Step(s, Connect(2)), DoAuth(2, ALICE, true));
      var s3 := Step(s2, DoUlRetry(2, true));
      && Run(s, RESUMED) == Step(s3, DoData(2, "b"))
      && (Honest(s3, DoData(2, "b")) ==> AllHonest(s, RESUMED))
  {
    hide Step, Honest, Run, AllHonest;
    var s1 := Step(s, RESUMED[0]);
    var s2 := Step(s1, RESUMED[1]);
    var s3 := Step(s2, RESUMED[2]);
    var s4 := Step(s3, RESUMED[3]);
    RunEnd(s4, RESUMED);
    RunFrom(s3, RESUMED, 3);
    RunFrom(s2, RESUMED, 2);
    RunFrom(s1, RESUMED, 1);
    RunFrom(s, RESUMED, 0);
    QuietIsHonest(s, RESUMED[0]);
    QuietIsHonest(s1, RESUMED[1]);
    QuietIsHonest(s2, RESUMED[2]);
    assert RESUMED[0..] == RESUMED;
  }

  /** Alice is back, with her record and without her partial file. */
  ghost predicate Back(s: State) {
    && Alone(s, 2, ROOT) && UserOf(s, 2) == ALICE && ALICE in s.intent && s.intent[ALICE] == Intent(F, "ab")
    && IsDir(s.disk.tree, CONF) && IsDir(s.disk.tree, ROOT) && F !in s.disk.tree
    && RecordOf(s.disk, ROOT, ALICE) == Some(RECORD) && PartialPath(ROOT, ALICE) !in s.disk.tree
  }

  lemma AliceIn(s: State)
    requires Robbed(s)
    ensures Back(Step(Step(s, Connect(2)), DoAuth(2, ALICE, true)))
  {
    hide Inv, Step, AtRoot, Joined, Ready, Cwd, UserOf, UserName, RecordOf;
    NamesOk();
    AloneAt(s, 2, ALICE);
    JoinedFacts(s, Step(Step(s, Connect(2)), DoAuth(2, ALICE, true)), 2, ALICE);
  }

  lemma AliceFinishes(s: State)
    requires Back(s)
    ensures var s3 := Step(s, DoUlRetry(2, true));
      var s4 := Step(s3, DoData(2, "b"));
      F in s4.disk.tree && TextOf(s4.disk.tree[F]) != "ab" && Honest(s3, DoData(2, "b"))
  {
    hide Inv, TreeInv, LockInv, AuthInv, CtxInv, Step, RecordOf, IsHeld, IsLocked, Honest, FreeToUpload, CanOpen;
    Places();
    AloneUnlocked(s, 2, "f");
    assert "ab"[1..] == "b" && Parent(F) == ROOT;
    InvParts(s);
    FreeExactly(s, F, true);
    OpenExactly(s, ALICE);
    RetryUsesUpRecord(s, 2, true);
    RetryExact(s, 2, true, "ab");
    RestIsHonest(s);
  }

  lemma RestIsHonest(s: State)
    requires Back(s) && MayUpload(s, F, true)
    ensures Honest(Step(s, DoUlRetry(2, true)), DoData(2, "b"))
  {
    hide Inv, RecordOf, Forgotten, Receive, MayUpload;
    Places();
    var s1, t := Forget(s, ALICE), Token(F, 2, 1, ALICE);
    ForgetMayUpload(s, ALICE, F, true);
    assert Openable(s.disk.tree, ROOT, ALICE);
    ForgottenKeepsPartial(s.disk, ROOT, ALICE, F);
    RetryResult(s, 2, true);
    ReceiveToken(s1, 2, t);
    ReceiveIntent(s1, 2, t);
  }

  /** With honest clients throughout, tampering with the configuration directory makes a
      finished upload wrong. */
  lemma TamperedUploadIsWrong()
    ensures var events := INTERRUPTED + TAMPERING + RESUMED;
      var s := Run(Initial(ROOT, TREE), events);
      && AllHonest(Initial(ROOT, TREE), events)
      && F in s.disk.tree && TextOf(s.disk.tree[F]) != "ab"
  {
    hide Run, AllHonest, Interrupted, Robbed;
    var s0 := Initial(ROOT, TREE);
    UploadInterrupted();
    var s1 := Run(s0, INTERRUPTED);
    BobComesAndGoes(s1);
    var s2 := Run(s1, TAMPERING);
    AliceResumes(s2);
    RunAppend(s0, INTERRUPTED, TAMPERING);
    HonestAppend(s0, INTERRUPTED, TAMPERING);
    RunAppend(s0, INTERRUPTED + TAMPERING, RESUMED);
    HonestAppend(s0, INTERRUPTED + TAMPERING, RESUMED);
  }

  // ---------- a refused retry ----------

  /** Alice finds a directory where her file was to go. */
  const REFUSED: seq<Event> := [Connect(1), DoAuth(1, ALICE, true), DoMkdir(1, "f"), DoUlRetry(1, true)]

  lemma RefusedEvents(s: State)
    ensures Run(s, REFUSED) ==
      Step(Step(Step(Step(s, Connect(1)), DoAuth(1, ALICE, true)), DoMkdir(1, "f")), DoUlRetry(1, true))
  {
    hide Step, Run, Honest, AllHonest;
    var s1 := Step(s, REFUSED[0]);
    var s2 := Step(s1, REFUSED[1]);
    var s3 := Step(s2, REFUSED[2]);
    RunEnd(Step(s3, REFUSED[3]), REFUSED);
    RunFrom(s3, REFUSED, 3);
    RunFrom(s2, REFUSED, 2);
    RunFrom(s1, REFUSED, 1);
    RunFrom(s, REFUSED, 0);
    assert REFUSED[0..] == REFUSED;
  }

  lemma AliceMakesDir(s: State)
    requires Alone(s, 1, ROOT) && F !in s.disk.tree
    ensures Step(s, DoMkdir(1, "f")) == SetDisk(s, Added(s.disk, F, Dir)) && Inv(Step(s, DoMkdir(1, "f")))
  {
    StepKeeps(s, DoMkdir(1, "f"));
    hide Inv;
    NamesOk();
    Places();
  }

  /** The retry is refused and the record is gone: nothing is left to resume, although one
      byte of the file is still there. */
  lemma RefusedRetryIsLost()
    ensures var s := Run(Initial(ROOT, TREE), INTERRUPTED + REFUSED);
      && Ready(s, 1) && UserOf(s, 1) == ALICE && RecordOf(s.disk, ROOT, ALICE) == None
      && PartialIs(s.disk, ROOT, ALICE, "a")
      && forall fits :: Step(s, DoUlRetry(1, fits)) == s
  {
    hide Run, Step, Inv, UserName, Joined, AtRoot, Ready, UserOf, Cwd, RecordOf, IsHeld;
    var s0 := Initial(ROOT, TREE);
    UploadInterrupted();
    var s := Run(s0, INTERRUPTED);
    RunAppend(s0, INTERRUPTED, REFUSED);
    RefusedEvents(s);
    NamesOk();
    Places();
    AloneAt(s, 1, ALICE);
    var s2 := Step(Step(s, Connect(1)), DoAuth(1, ALICE, true));
    JoinedFacts(s, s2, 1, ALICE);
    AliceMakesDir(s2);
    var s3 := Step(s2, DoMkdir(1, "f"));
    DirInTheWay(s2, s3);
    RefusedFacts(s3);
  }

  lemma DirInTheWay(s: State, s': State)
    requires Ready(s, 1) && UserOf(s, 1) == ALICE && s.root == ROOT && s' == SetDisk(s, Added(s.disk, F, Dir))
    requires s.disk.tree == TREE[PartialPath(ROOT, ALICE) := File("a")][BackupPath(ROOT, ALICE) := Notes(RECORD)]
    ensures Ready(s', 1) && UserOf(s', 1) == ALICE && RecordOf(s'.disk, ROOT, ALICE) == Some(RECORD)
    ensures PartialIs(s'.disk, ROOT, ALICE, "a") && F in s'.disk.tree
  {
    Places();
  }

  lemma RefusedFacts(s: State)
    requires Inv(s) && Ready(s, 1) && UserOf(s, 1) == ALICE && s.root == ROOT
    requires RecordOf(s.disk, ROOT, ALICE) == Some(RECORD) && PartialIs(s.disk, ROOT, ALICE, "a") && F in s.disk.tree
    ensures var s' := Step(s, DoUlRetry(1, true));
      && Ready(s', 1) && UserOf(s', 1) == ALICE && RecordOf(s'.disk, ROOT, ALICE) == None
      && PartialIs(s'.disk, ROOT, ALICE, "a")
      && forall fits :: Step(s', DoUlRetry(1, fits)) == s'
  {
    hide Inv, RecordOf, Forgotten, Receive;
    Places();
    RetryUsesUpRecord(s, 1, true);
    ForgottenKeepsPartial(s.disk, ROOT, ALICE, F);
    assert !FreeToUpload(s, F, true);
  }

  // ---------- an upload that replaces a file ----------

  const G: Path := ["r", "g"]

  /** While Alice uploads f, Bob renames another file to f and asks for it. */
  const CROSSING: seq<Event> := [Connect(1), DoAuth(1, "bob", true), DoRename(1, "g", "f"), DoDl(1, "f", 0)]

  lemma CrossingEvents(s: State)
    ensures Run(s, CROSSING) ==
      Step(Step(Step(Step(s, Connect(1)), DoAuth(1, "bob", true)), DoRename(1, "g", "f")), DoDl(1, "f", 0))
  {
    hide Step, Run, Honest, AllHonest;
    var s1 := Step(s, CROSSING[0]);
    var s2 := Step(s1, CROSSING[1]);
    var s3 := Step(s2, CROSSING[2]);
    RunEnd(Step(s3, CROSSING[3]), CROSSING);
    RunFrom(s3, CROSSING, 3);
    RunFrom(s2, CROSSING, 2);
    RunFrom(s1, CROSSING, 1);
    RunFrom(s, CROSSING, 0);
    assert CROSSING[0..] == CROSSING;
  }

  /** Alice's upload in progress, and nothing locked but the root and f. */
  ghost predicate AliceUploads(s: State) {
    && Receives(s, 0) && TokenOf(s, 0) == Token(F, 2, 0, ALICE) && s.root == ROOT
    && FileOf(s, 0) in s.disk.open && s.disk.open[FileOf(s, 0)] == PartialPath(ROOT, ALICE)
    && PartialPath(ROOT, ALICE) in s.disk.tree && s.disk.tree[PartialPath(ROOT, ALICE)] == File("")
    && IsDir(s.disk.tree, ROOT)
  }

  ghost predicate LocksAt(s: State, paths: set<Path>) { forall id <- s.locks :: s.locks[id].path in paths }

  lemma BobRenames(s: State)
    requires Inv(s) && AliceUploads(s) && LocksAt(s, {ROOT, F}) && Ready(s, 1) && Cwd(s, 1) == ROOT
    requires G in s.disk.tree && s.disk.tree[G] == File("gg") && F !in s.disk.tree
    ensures var s' := Step(s, DoRename(1, "g", "f"));
      && Inv(s') && AliceUploads(s') && Ready(s', 1) && Cwd(s', 1) == ROOT
      && F in s'.disk.tree && s'.disk.tree[F] == File("gg")
  {
    TreeWellFormed(s);
    hide Inv, Step, Relocated, WellFormed, IsLocked, AliceUploads, Ready, Cwd;
    StepKeeps(s, DoRename(1, "g", "f"));
    UploadingRoot(s);
    NotLockedG(s);
    RenamedG(s.disk);
    StepIsRename(s);
    StillUploading(s, Relocated(s.disk, G, F));
  }

  lemma TreeWellFormed(s: State)
    requires Inv(s)
    ensures WellFormed(s.disk.tree, s.root)
  {
  }

  lemma UploadingRoot(s: State)
    requires AliceUploads(s)
    ensures s.root == ROOT
  {
  }

  /** Nothing of Alice's upload is below g. */
  lemma StillUploading(s: State, d: Disk)
    requires AliceUploads(s) && Ready(s, 1) && Cwd(s, 1) == ROOT
    requires forall p: Path | p in s.disk.tree && !(G <= p) :: p in d.tree && d.tree[p] == s.disk.tree[p]
    requires forall h <- s.disk.open :: !(G <= s.disk.open[h]) ==> h in d.open && d.open[h] == s.disk.open[h]
    requires !(G <= ROOT) && !(G <= PartialPath(ROOT, ALICE))
    ensures var s' := SetDisk(s, d); AliceUploads(s') && Ready(s', 1) && Cwd(s', 1) == ROOT
  {
    assert Receives(SetDisk(s, d), 0);
  }

  lemma NotLockedG(s: State)
    requires LocksAt(s, {ROOT, F})
    ensures !IsLocked(s, G)
  {
    LockTestExact(ROOT, G);
    LockTestExact(F, G);
    assert G[1][0] != F[1][0];
  }

  lemma StepIsRename(s: State)
    requires Ready(s, 1) && Cwd(s, 1) == ROOT && !IsLocked(s, G) && G in s.disk.tree && F !in s.disk.tree
    ensures Step(s, DoRename(1, "g", "f")) == SetDisk(s, Relocated(s.disk, G, F))
  {
    hide IsLocked, Relocated;
    NamesOk();
    Places();
    assert ROOT + ["g"] == G;
  }

  lemma RenamedG(d: Disk)
    requires WellFormed(d.tree, ROOT) && G in d.tree && F !in d.tree
    ensures var d' := Relocated(d, G, F);
      && F in d'.tree && d'.tree[F] == d.tree[G]
      && (forall p: Path | p in d.tree && !(G <= p) :: p in d'.tree && d'.tree[p] == d.tree[p])
      && (forall h <- d.open :: !(G <= d.open[h]) ==> h in d'.open && d'.open[h] == d.open[h])
      && !(G <= ROOT) && !(G <= PartialPath(ROOT, ALICE))
  {
    Places();
    assert Parent(F) == ROOT && Ordinary(F);
    assert G[1][0] != F[1][0] && PartialPath(ROOT, ALICE)[1] == ".tds" && |G[1]| != |".tds"|;
    assert Movable(d.tree, ROOT, G, F);
    MovedExact(d.tree, G, F, F);
    assert Rebased(F, F, G) == G;
    hide Moved, Movable;
    forall p: Path | p in d.tree && !(G <= p) ensures p in Moved(d.tree, G, F) && Moved(d.tree, G, F)[p] == d.tree[p] {
      MovedKeeps(d.tree, ROOT, G, F, p);
    }
  }

  lemma BobAsks(s: State)
    requires Inv(s) && AliceUploads(s) && Ready(s, 1) && Cwd(s, 1) == ROOT && F in s.disk.tree && s.disk.tree[F] == File("gg")
    ensures var s' := Step(s, DoDl(1, "f", 0));
      && AliceUploads(s') && F in s'.disk.tree && s'.disk.tree[F] == File("gg")
      && s.next in s'.locks && s'.locks[s.next] == Lock(F, 1, Requested, Fetch(2, 0))
  {
    hide Inv, LockInv, Grant, Step, Ready, Cwd, AliceUploads;
    InvParts(s);
    StepIsDl(s);
    UploadingHolds(s);
    GrantToBob(s);
  }

  lemma GrantToBob(s: State)
    requires LockInv(s) && AliceUploads(s) && 0 in s.clients && Storing in s.clients[0].held && 1 in s.clients
    ensures var s' := Grant(s, 1, Requested, F, Fetch(2, 0));
      AliceUploads(s') && s'.disk == s.disk && s.next in s'.locks && s'.locks[s.next] == Lock(F, 1, Requested, Fetch(2, 0))
  {
    hide LockInv, Grant, AliceUploads;
    GrantShape(s, 1, Requested, F, Fetch(2, 0));
    GrantSpares(s, 1, Requested, F, Fetch(2, 0), 0, Storing);
    UploadingFrame(s, Grant(s, 1, Requested, F, Fetch(2, 0)));
  }

  lemma UploadingHolds(s: State)
    requires AliceUploads(s) && Ready(s, 1)
    ensures 0 in s.clients && Storing in s.clients[0].held && 1 in s.clients
  {
  }

  lemma UploadingFrame(s: State, s': State)
    requires AliceUploads(s) && 0 in s.clients && Storing in s.clients[0].held
    requires s'.disk == s.disk && s'.root == s.root && 0 in s'.clients && s'.clients[0] == s.clients[0]
    requires SameLock(s, s', s.clients[0].held[Storing])
    ensures AliceUploads(s')
  {
  }

  lemma StepIsDl(s: State)
    requires Ready(s, 1) && Cwd(s, 1) == ROOT && F in s.disk.tree && s.disk.tree[F] == File("gg")
    ensures Step(s, DoDl(1, "f", 0)) == Grant(s, 1, Requested, F, Fetch(2, 0))
  {
    hide Grant;
    NamesOk();
    Places();
  }

  /** Alice's last bytes replace the file that Bob holds a download token for. */
  lemma BytesReplace(s: State)
    requires AliceUploads(s) && F in s.disk.tree && s.disk.tree[F] == File("gg")
    ensures Overwrites(s, DoData(0, "ab"), F)
  {
    Places();
    assert "ab"[..2] == "ab" && "" + "ab" == "ab" && Parent(F) == ROOT;
    assert |"ab"| == |"gg"| && "ab"[0] != "gg"[0];
  }

  /** Before Bob comes: Alice's upload has begun, and only the root and f are locked. */
  lemma AliceBegins()
    ensures var s := Run(Initial(ROOT, TREE), INTERRUPTED[..3]);
      && Inv(s) && Begun(s, 0) && LocksAt(s, {ROOT, F}) && forall id <- s.auths :: s.auths[id].user != "bob"
  {
    hide Inv, DiskOk, Step, Run, AllHonest, AtRoot, Joined, Begun, UserName, LocksAt;
    var s0, e := Initial(ROOT, TREE), DoUl(0, "f", "ab", true);
    TreeOk();
    InitialInv(ROOT, TREE);
    Prefixes(s0);
    NamesOk();
    AloneAt(s0, 0, ALICE);
    var s2 := Step(Step(s0, Connect(0)), DoAuth(0, ALICE, true));
    JoinedFacts(s0, s2, 0, ALICE);
    StepKeeps(s2, e);
    BeginsUpload(s2);
    LocksOfUpload(s2);
    OnlyAlice(Step(s2, e));
  }

  lemma LocksOfUpload(s: State)
    requires Inv(s) && Ready(s, 0) && Cwd(s, 0) == ROOT && UserOf(s, 0) == ALICE && s.clients[0].held.Keys == {WorkDir}
    requires s.clients.Keys == {0} && s.root == ROOT && s.disk.tree == TREE
    ensures LocksAt(Step(s, DoUl(0, "f", "ab", true)), {ROOT, F})
  {
    hide Inv, Openable, Opened, IsHeld, IsLocked, UserName, Grant, Step;
    NamesOk();
    Places();
    LocksAtCwd(s, 0);
    AloneUnlocked(s, 0, "f");
    FreeAtStart(s.disk.tree);
    GrantedLocks(s, 0, Storing, F, Store(2, 0, ALICE, true));
    StepIsUl(s);
  }

  lemma StepIsUl(s: State)
    requires Ready(s, 0) && Cwd(s, 0) == ROOT && UserOf(s, 0) == ALICE && s.root == ROOT && s.disk.tree == TREE
    requires !IsHeld(s, F) && Openable(TREE, ROOT, ALICE)
    ensures Step(s, DoUl(0, "f", "ab", true)).locks == Grant(s, 0, Storing, F, Store(2, 0, ALICE, true)).locks
  {
    hide Openable, Opened, IsHeld, Grant;
    NamesOk();
    FreeAtStart(s.disk.tree);
    assert Parent(F) == ROOT;
  }

  lemma LocksAtCwd(s: State, c: ClientId)
    requires Inv(s) && Ready(s, c) && s.clients.Keys == {c} && s.clients[c].held.Keys == {WorkDir}
    ensures forall id <- s.locks :: s.locks[id].path == Cwd(s, c)
  {
    forall id | id in s.locks ensures s.locks[id].path == Cwd(s, c) {
      assert LockOk(s, id) && s.locks[id].owner == c;
    }
  }

  lemma GrantedLocks(s: State, c: ClientId, role: Role, path: Path, payload: Payload)
    requires c in s.clients
    ensures forall id <- Grant(s, c, role, path, payload).locks ::
      Grant(s, c, role, path, payload).locks[id].path == path
      || (id in s.locks && Grant(s, c, role, path, payload).locks[id] == s.locks[id])
  {
    hide Sweep;
  }

  lemma OnlyAlice(s: State)
    requires Inv(s) && Begun(s, 0)
    ensures forall id <- s.auths :: s.auths[id].user != "bob"
  {
    assert CtxOk(s, 0);
    forall id | id in s.auths ensures s.auths[id].user != "bob" {
      assert AuthOk(s, id) && s.auths[id].owner == 0;
      assert ALICE[0] != "bob"[0];
    }
  }

  lemma BobJoins(s: State)
    requires Inv(s) && Begun(s, 0) && LocksAt(s, {ROOT, F}) && forall id <- s.auths :: s.auths[id].user != "bob"
    ensures var s' := Step(Step(s, Connect(1)), DoAuth(1, "bob", true));
      && Inv(s') && AliceUploads(s') && LocksAt(s', {ROOT, F}) && Ready(s', 1) && Cwd(s', 1) == ROOT
      && G in s'.disk.tree && s'.disk.tree[G] == File("gg") && F !in s'.disk.tree
  {
    hide Inv, Step, UserName;
    NamesOk();
    Places();
    StepKeeps(s, Connect(1));
    StepKeeps(Step(s, Connect(1)), DoAuth(1, "bob", true));
    LoginFacts(s, 1, "bob");
  }

  /** A reachable state in which the next upload bytes replace the file that a connected
      client holds a download token for. */
  lemma FileReplacedUnderToken()
    ensures var s := Run(Initial(ROOT, TREE), INTERRUPTED[..3] + CROSSING);
      && Overwrites(s, DoData(0, "ab"), F)
      && exists id <- s.locks :: s.locks[id] == Lock(F, 1, Requested, Fetch(2, 0))
  {
    hide Run, Step, Inv, Begun, LocksAt, AliceUploads, Overwrites;
    var s0 := Initial(ROOT, TREE);
    AliceBegins();
    var s3 := Run(s0, INTERRUPTED[..3]);
    RunAppend(s0, INTERRUPTED[..3], CROSSING);
    CrossingEvents(s3);
    BobJoins(s3);
    var s5 := Step(Step(s3, Connect(1)), DoAuth(1, "bob", true));
    BobRenames(s5);
    var s6 := Step(s5, DoRename(1, "g", "f"));
    BobAsks(s6);
    var s7 := Step(s6, DoDl(1, "f", 0));
    BytesReplace(s7);
    assert s7.locks[s6.next] == Lock(F, 1, Requested, Fetch(2, 0));
  }
}
