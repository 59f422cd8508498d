/** The state all clients share: server/src/protocol/server_context.cpp and
    client_context.cpp, and the commands that act on it (server/src/protocol/execution).
    Every command is one atomic step. */
module ServerState {
  import opened Options
  import opened Paths
  import opened Disks
  import opened Uploads
  import opened ProtocolMode
  import opened Widths
  import Copy

  type ClientId = nat
  type TokenId = nat

  const MAX_TRY_COUNT := 3

  /** Who keeps a token alive: the client context's current path and requested download,
      the download manager, the upload manager. */
  datatype Role = WorkDir | Requested | Sending | Storing

  /** `begun` says that the partial file was opened. */
  datatype Payload = Plain | Fetch(size: nat, offset: nat) | Store(size: nat, offset: nat, stem: User, begun: bool)

  /** A live path lock or token. */
  datatype Lock = Lock(path: Path, owner: ClientId, role: Role, payload: Payload)

  datatype Auth = Auth(user: User, owner: ClientId)

  /** A connected client. `failures` is history: bad passwords since the last login. */
  datatype Ctx = Ctx(alive: bool, tries: int, mode: Mode, auth: Option<TokenId>, held: map<Role, TokenId>, failures: nat)

  const NEW_CLIENT := Ctx(true, 0, Command, None, map[], 0)

  /** `auths` and `locks` are the live objects; `authList` and `lockList` the server's
      weak pointers, which may be expired. `intent` is history: the file each user means
      to upload, and where. */
  datatype State = State(root: Path, disk: Disk,
                         auths: map<TokenId, Auth>, authList: seq<TokenId>,
                         locks: map<TokenId, Lock>, lockList: seq<TokenId>,
                         clients: map<ClientId, Ctx>, next: TokenId, intent: map<User, Intent>)

  datatype Intent = Intent(path: Path, source: string)

  function Initial(root: Path, tree: Tree): State {
    State(root, Disk(tree, map[]), map[], [], map[], [], map[], 0, map[])
  }

  // ---------- weak pointers ----------

  /** erase_if expired */
  function Sweep(list: seq<TokenId>, live: set<TokenId>): (r: seq<TokenId>)
    ensures forall id :: id in r <==> id in list && id in live
  {
    if list == [] then []
    else
      var r := Sweep(list[..|list| - 1], live);
      var id := list[|list| - 1];
      assert list == list[..|list| - 1] + [id];
      if id in live then r + [id] else r
  }

  /** is_path_locked */
  predicate IsLocked(s: State, p: Path) {
    exists id <- s.lockList :: id in s.locks && Covers(s.locks[id].path, p)
  }

  /** throw_if_file_is_already_uploaded */
  predicate IsHeld(s: State, p: Path) {
    exists id <- s.lockList :: id in s.locks && s.locks[id].path == p
  }

  /** A client gives up what it holds in a role. */
  function Release(s: State, c: ClientId, role: Role): State
    requires c in s.clients
  {
    var ctx := s.clients[c];
    if role !in ctx.held then s
    else s.(locks := s.locks - {ctx.held[role]}, clients := s.clients[c := ctx.(held := ctx.held - {role})])
  }

  /** insert_path_lock: expired entries go, the new token comes last. */
  function Listed(s: State): State {
    s.(lockList := Sweep(s.lockList, s.locks.Keys) + [s.next], next := s.next + 1)
  }

  /** A client takes hold of a token in a role in which it holds none. */
  function Taken(s: State, c: ClientId, id: TokenId, lock: Lock): State
    requires c in s.clients
  {
    var ctx := s.clients[c];
    s.(locks := s.locks[id := lock], clients := s.clients[c := ctx.(held := ctx.held[lock.role := id])])
  }

  /** A new lock, held by a client in place of what it held in that role. */
  function Grant(s: State, c: ClientId, role: Role, path: Path, payload: Payload): State
    requires c in s.clients
  {
    Taken(Release(Listed(s), c, role), c, s.next, Lock(path, c, role, payload))
  }

  // ---------- commands ----------

  /** A logged-in client in command mode, and so with a current directory. */
  predicate Ready(s: State, c: ClientId) {
    && c in s.clients && s.clients[c].mode == Command
    && s.clients[c].auth.Some? && s.clients[c].auth.value in s.auths
    && WorkDir in s.clients[c].held && s.clients[c].held[WorkDir] in s.locks
  }

  function Cwd(s: State, c: ClientId): Path
    requires Ready(s, c)
  {
    s.locks[s.clients[c].held[WorkDir]].path
  }

  function UserOf(s: State, c: ClientId): User
    requires Ready(s, c)
  {
    s.auths[s.clients[c].auth.value].user
  }

  function SetDisk(s: State, d: Disk): State { s.(disk := d) }

  function Added(d: Disk, p: Path, node: Node): Disk { d.(tree := d.tree[p := node]) }

  function SetCtx(s: State, c: ClientId, ctx: Ctx): State { s.(clients := s.clients[c := ctx]) }

  /** `m_auth_try_count` is a signed field of seven bits. */
  function Incremented(tries: int): int { if tries == 63 then -64 else tries + 1 }

  /** remove_expired_auth_tokens */
  function Swept(s: State): State { s.(authList := Sweep(s.authList, s.auths.Keys)) }

  function ListedAuth(s: State): State { s.(authList := s.authList + [s.next], next := s.next + 1) }

  /** set_auth_token with a new token */
  function LoggedIn(s: State, c: ClientId, user: User, id: TokenId): State
    requires c in s.clients
  {
    SetCtx(s, c, s.clients[c].(auth := Some(id), tries := 0, failures := 0)).(auths := s.auths[id := Auth(user, c)])
  }

  function Failed(ctx: Ctx): Ctx {
    var tries := Incremented(ctx.tries);
    ctx.(tries := tries, failures := ctx.failures + 1, alive := ctx.alive && tries != MAX_TRY_COUNT)
  }

  predicate NameTaken(s: State, user: User) {
    exists id <- s.authList :: id in s.auths && s.auths[id].user == user
  }

  /** Auth::execute with authorize_user. A client that is logged in under another name
      makes a token that is dropped at once. */
  function Authorise(s: State, c: ClientId, user: User, valid: bool): State
    requires c in s.clients
  {
    var s, ctx := Swept(s), s.clients[c];
    if !valid then SetCtx(s, c, Failed(ctx))
    else if NameTaken(s, user) then s
    else if ctx.auth.Some? then ListedAuth(s)
    else Grant(LoggedIn(ListedAuth(s), c, user, s.next), c, WorkDir, s.root, Plain)
  }

  function Logout(s: State, c: ClientId): State
    requires Ready(s, c)
  {
    SetCtx(s, c, s.clients[c].(auth := None)).(auths := s.auths - {s.clients[c].auth.value})
  }

  function Cd(s: State, c: ClientId, path: Path): State
    requires Ready(s, c)
  {
    var id := s.clients[c].held[WorkDir];
    if IsDir(s.disk.tree, path) && !Forbidden(s.root, path) then s.(locks := s.locks[id := s.locks[id].(path := path)]) else s
  }

  function Mkdir(s: State, c: ClientId, name: string): State
    requires Ready(s, c)
  {
    var p := Cwd(s, c) + [name];
    if p in s.disk.tree then s else SetDisk(s, Added(s.disk, p, Dir))
  }

  function Rm(s: State, c: ClientId, name: string): State
    requires Ready(s, c)
  {
    var p := Cwd(s, c) + [name];
    if p !in s.disk.tree || IsLocked(s, p) then s else SetDisk(s, Erased(s.disk, p))
  }

  function Rename(s: State, c: ClientId, oname: string, nname: string): State
    requires Ready(s, c)
  {
    var from, to := Cwd(s, c) + [oname], Cwd(s, c) + [nname];
    if from !in s.disk.tree || IsLocked(s, from) || from == to || to in s.disk.tree then s
    else SetDisk(s, Relocated(s.disk, from, to))
  }

  /** A directory cannot be moved below itself: the file system refuses. */
  function Mv(s: State, c: ClientId, name: string, dir: Path): State
    requires Ready(s, c)
  {
    var from, to := Cwd(s, c) + [name], dir + [name];
    if from !in s.disk.tree || !IsDir(s.disk.tree, dir) || Forbidden(s.root, dir) then s
    else if IsLocked(s, from) || to in s.disk.tree || from <= to then s
    else SetDisk(s, Relocated(s.disk, from, to))
  }

  function Cp(s: State, c: ClientId, name: string, dir: Path): State
    requires Ready(s, c)
  {
    var t, from := s.disk.tree, Cwd(s, c) + [name];
    if !IsFile(t, from) || !IsDir(t, dir) || Forbidden(s.root, dir) then s
    else SetDisk(s, Added(s.disk, Copy.CopyTarget(t, dir, name), t[from]))
  }

  /** An offset beyond the file is noticed after the token was listed. */
  function Dl(s: State, c: ClientId, name: string, offset: nat): State
    requires Ready(s, c)
  {
    var t, p := s.disk.tree, Cwd(s, c) + [name];
    if !IsFile(t, p) then s
    else if offset > |TextOf(t[p])| then Listed(s)
    else Grant(s, c, Requested, p, Fetch(|TextOf(t[p])|, offset))
  }

  /** The length a successful `dl` announces. */
  function Announced(s: State, c: ClientId, name: string, offset: nat): Option<nat>
    requires Ready(s, c)
  {
    var t, p := s.disk.tree, Cwd(s, c) + [name];
    if IsFile(t, p) && offset <= |TextOf(t[p])| then Some(|TextOf(t[p])| - offset) else None
  }

  /** The token of a download moves from the client context to the download manager. */
  function Handed(s: State, c: ClientId): State
    requires c in s.clients && Requested in s.clients[c].held && s.clients[c].held[Requested] in s.locks
  {
    var ctx := s.clients[c];
    var id := ctx.held[Requested];
    SetCtx(s, c, ctx.(mode := Download, held := (ctx.held - {Requested})[Sending := id]))
      .(locks := s.locks[id := s.locks[id].(role := Sending)])
  }

  /** Dls::execute with start_download: the token moves to the download manager, which
      does not keep that of an empty file. */
  function Dls(s: State, c: ClientId): State
    requires Ready(s, c)
  {
    var ctx := s.clients[c];
    if Requested !in ctx.held || ctx.held[Requested] !in s.locks then s
    else
      var payload := s.locks[ctx.held[Requested]].payload;
      if payload.Fetch? && payload.size > 0 then Handed(s, c)
      else
        var s := Release(s, c, Requested);
        SetCtx(s, c, s.clients[c].(mode := Download))
  }

  /** A transfer has moved `count` bytes of the file, or as many as were left: the lock goes
      with the last one. A transfer that moves nothing is fatal, and so is one of which as
      many bytes are asked for as make -1 of an `int`. */
  function Transferred(s: State, c: ClientId, count: nat): State
    requires c in s.clients && s.clients[c].mode == Download
  {
    var ctx := s.clients[c];
    if Sending !in ctx.held || ctx.held[Sending] !in s.locks then SetCtx(s, c, ctx.(mode := Command))
    else
      var id := ctx.held[Sending];
      var lock := s.locks[id];
      if !lock.payload.Fetch? || lock.payload.offset > lock.payload.size then s
      else
        var Fetch(size, offset) := lock.payload;
        var n := if count < size - offset then count else size - offset;
        if n == 0 || (size - offset) % UINT_COUNT == UINT_COUNT - 1 then
          SetCtx(s, c, ctx.(alive := false))
            .(locks := s.locks[id := lock.(payload := Fetch(size, offset + n))])
        else if offset + n == size then
          var s := Release(s, c, Sending);
          SetCtx(s, c, s.clients[c].(mode := Command))
        else s.(locks := s.locks[id := lock.(payload := Fetch(size, offset + n))])
  }

  /** upload_file: `fits` stands for the size limits. */
  predicate MayUpload(s: State, path: Path, fits: bool) {
    path != [] && path !in s.disk.tree && Parent(path) in s.disk.tree && fits && !IsHeld(s, path)
  }

  /** Ul::execute with start_upload, once a token is to be had. A temporary file that cannot
      be opened is fatal. */
  function Receive(s: State, c: ClientId, t: Token): State
    requires c in s.clients
  {
    var begun := Openable(s.disk.tree, s.root, t.stem);
    var disk := if begun then Opened(s.disk, s.root, s.next, t) else s.disk;
    var s := Grant(s, c, Storing, t.path, Store(t.size, t.offset, t.stem, begun));
    SetCtx(s, c, s.clients[c].(mode := Upload, alive := s.clients[c].alive && begun)).(disk := disk)
  }

  /** ul: the client means to send `source`, whose size it announces. */
  function Ul(s: State, c: ClientId, name: string, source: string, fits: bool): State
    requires Ready(s, c)
  {
    var path, user := Cwd(s, c) + [name], UserOf(s, c);
    if !MayUpload(s, path, fits) then s
    else Receive(s, c, Token(path, |source|, 0, user)).(intent := s.intent[user := Intent(path, source)])
  }

  /** The record of a user, if any, is gone. */
  function Forget(s: State, user: User): State { SetDisk(s, Forgotten(s.disk, s.root, user)) }

  /** ul with retry: name and size come from the record, which is gone in any case. */
  function UlRetry(s: State, c: ClientId, fits: bool): State
    requires Ready(s, c)
  {
    var user := UserOf(s, c);
    match RecordOf(s.disk, s.root, user)
    case None => s
    case Some(r) =>
      var s := Forget(s, user);
      if !MayUpload(s, r.path, fits) then s else Receive(s, c, Token(r.path, r.size, r.offset, user))
  }

  predicate Receives(s: State, c: ClientId) {
    && c in s.clients && s.clients[c].mode == Upload
    && Storing in s.clients[c].held && s.clients[c].held[Storing] in s.locks
    && var lock := s.locks[s.clients[c].held[Storing]];
      lock.path != [] && lock.payload.Store? && lock.payload.begun && lock.payload.offset <= lock.payload.size
  }

  function TokenOf(s: State, c: ClientId): (t: Token)
    requires Receives(s, c)
    ensures ValidToken(t)
  {
    var lock := s.locks[s.clients[c].held[Storing]];
    Token(lock.path, lock.payload.size, lock.payload.offset, lock.payload.stem)
  }

  function FileOf(s: State, c: ClientId): Handle
    requires Receives(s, c)
  {
    s.clients[c].held[Storing]
  }

  /** Upload bytes arrive; an upload that cannot be put in place kills the client. */
  function Data(s: State, c: ClientId, bytes: string): State
    requires Receives(s, c)
  {
    var r := Committed(s.disk, s.root, FileOf(s, c), TokenOf(s, c), bytes);
    var s := SetDisk(s, r.disk);
    if r.token.None? then
      var s := Release(s, c, Storing);
      SetCtx(s, c, s.clients[c].(mode := Command))
    else
      var id := s.clients[c].held[Storing];
      var t := r.token.value;
      SetCtx(s, c, s.clients[c].(alive := s.clients[c].alive && !r.thrown))
        .(locks := s.locks[id := s.locks[id].(payload := Store(t.size, t.offset, t.stem, true))])
  }

  /** ~Client: the upload manager leaves its record, then every token goes. */
  function Close(s: State, c: ClientId): State
    requires c in s.clients
  {
    var ctx := s.clients[c];
    var disk := if Receives(s, c) then Closed(BackedUp(s.disk, s.root, TokenOf(s, c)), FileOf(s, c)) else s.disk;
    s.(disk := disk,
       locks := s.locks - ctx.held.Values,
       auths := if ctx.auth.Some? then s.auths - {ctx.auth.value} else s.auths,
       clients := s.clients - {c})
  }

  // ---------- runs ----------

  datatype Event =
    | Connect(c: ClientId) | Disconnect(c: ClientId) | Kill(c: ClientId)
    | DoAuth(c: ClientId, user: User, valid: bool) | DoLogout(c: ClientId)
    | DoCd(c: ClientId, path: Path) | DoMkdir(c: ClientId, name: string)
    | DoRm(c: ClientId, name: string) | DoRename(c: ClientId, oname: string, nname: string)
    | DoMv(c: ClientId, name: string, dir: Path) | DoCp(c: ClientId, name: string, dir: Path)
    | DoDl(c: ClientId, name: string, offset: nat) | DoDls(c: ClientId) | DoSent(c: ClientId, count: nat)
    | DoUl(c: ClientId, name: string, source: string, fits: bool) | DoUlRetry(c: ClientId, fits: bool)
    | DoData(c: ClientId, bytes: string)

  /** One step of any client; a step that the client cannot take changes nothing. The user
      table has only names that its check lets through. */
  function Step(s: State, e: Event): State {
    match e
    case Connect(c) => if c in s.clients then s else SetCtx(s, c, NEW_CLIENT)
    case Disconnect(c) => if c in s.clients then Close(s, c) else s
    case Kill(c) => if c in s.clients then SetCtx(s, c, s.clients[c].(alive := false)) else s
    case DoAuth(c, user, valid) =>
      if c in s.clients && s.clients[c].mode == Command && (valid ==> UserName(user)) then Authorise(s, c, user, valid) else s
    case DoLogout(c) => if Ready(s, c) then Logout(s, c) else s
    case DoCd(c, path) => if Ready(s, c) then Cd(s, c, path) else s
    case DoMkdir(c, name) => if Ready(s, c) && Component(name) then Mkdir(s, c, name) else s
    case DoRm(c, name) => if Ready(s, c) && Component(name) then Rm(s, c, name) else s
    case DoRename(c, oname, nname) =>
      if Ready(s, c) && Component(oname) && Component(nname) then Rename(s, c, oname, nname) else s
    case DoMv(c, name, dir) => if Ready(s, c) && Component(name) then Mv(s, c, name, dir) else s
    case DoCp(c, name, dir) => if Ready(s, c) && Component(name) then Cp(s, c, name, dir) else s
    case DoDl(c, name, offset) => if Ready(s, c) && Component(name) then Dl(s, c, name, offset) else s
    case DoDls(c) => if Ready(s, c) then Dls(s, c) else s
    case DoSent(c, count) => if c in s.clients && s.clients[c].mode == Download then Transferred(s, c, count) else s
    case DoUl(c, name, source, fits) =>
      if Ready(s, c) && Component(name) then Ul(s, c, name, source, fits) else s
    case DoUlRetry(c, fits) => if Ready(s, c) then UlRetry(s, c, fits) else s
    case DoData(c, bytes) => if Receives(s, c) then Data(s, c, bytes) else s
  }

  function Run(s: State, events: seq<Event>): State
    decreases |events|
  {
    if events == [] then s else Run(Step(s, events[0]), events[1..])
  }
}
