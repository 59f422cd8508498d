/** ServerContext's two lists of weak pointers, with the loops that search and sweep them
    (server/src/protocol/server_context.cpp), against the state the commands act on. */
module ServerContexts {
  import opened Options
  import opened Paths
  import opened Disks
  import opened ProtocolMode
  import opened ServerState
  import opened ServerSafety

  datatype Authorisation = Granted(id: TokenId) | InvalidCredentials | AlreadyLogged

  class ServerContext {
    const root: Path
    var authTokens: seq<TokenId>
    var pathLocks: seq<TokenId>
    /** The objects the weak pointers point to while somebody keeps them alive. */
    var auths: map<TokenId, Auth>
    var locks: map<TokenId, Lock>
    var next: TokenId

    /** A server state with these lists and objects in it. */
    ghost function In(s: State): State
      reads this
    {
      s.(root := root, auths := auths, authList := authTokens, locks := locks, lockList := pathLocks, next := next)
    }

    constructor (root: Path)
      ensures this.root == root
      ensures authTokens == [] && pathLocks == [] && auths == map[] && locks == map[] && next == 0
    {
      this.root := root;
      authTokens, pathLocks, auths, locks, next := [], [], map[], map[], 0;
    }

    method IsPathLocked(path: Path, ghost s: State) returns (locked: bool)
      ensures locked == IsLocked(In(s), path)
    {
      for i := 0 to |pathLocks|
        invariant forall j | 0 <= j < i :: pathLocks[j] in locks ==> !Covers(locks[pathLocks[j]].path, path)
      {
        if pathLocks[i] in locks && Covers(locks[pathLocks[i]].path, path) {
          return true;
        }
      }
      locked := false;
    }

    method IsFileUploaded(path: Path, ghost s: State) returns (held: bool)
      ensures held == IsHeld(In(s), path)
    {
      for i := 0 to |pathLocks|
        invariant forall j | 0 <= j < i :: pathLocks[j] in locks ==> locks[pathLocks[j]].path != path
      {
        if pathLocks[i] in locks && locks[pathLocks[i]].path == path {
          return true;
        }
      }
      held := false;
    }

    /** erase_if */
    method EraseExpired(list: seq<TokenId>, live: set<TokenId>) returns (r: seq<TokenId>)
      ensures r == Sweep(list, live)
    {
      r := [];
      for i := 0 to |list|
        invariant r == Sweep(list[..i], live)
      {
        assert list[..i + 1][..i] == list[..i];
        if list[i] in live {
          r := r + [list[i]];
        }
      }
      assert list[..|list|] == list;
    }

    method InsertPathLock(lock: Lock, ghost s: State) returns (id: TokenId)
      modifies this
      ensures id == old(next) && In(s) == Listed(old(In(s))).(locks := old(locks)[id := lock])
    {
      id := next;
      pathLocks := EraseExpired(pathLocks, locks.Keys);
      pathLocks := pathLocks + [id];
      locks := locks[id := lock];
      next := next + 1;
    }

    method IsNameTaken(user: User, ghost s: State) returns (taken: bool)
      requires forall id <- authTokens :: id in auths
      ensures taken == NameTaken(In(s), user)
    {
      for i := 0 to |authTokens|
        invariant forall j | 0 <= j < i :: auths[authTokens[j]].user != user
      {
        if auths[authTokens[i]].user == user {
          return true;
        }
      }
      taken := false;
    }

    method AuthorizeUser(owner: ClientId, user: User, valid: bool, ghost s: State) returns (r: Authorisation)
      modifies this
      ensures r.InvalidCredentials? <==> !valid
      ensures r.AlreadyLogged? <==> valid && NameTaken(Swept(old(In(s))), user)
      ensures In(s) ==
        if r.Granted? then ListedAuth(Swept(old(In(s)))).(auths := old(auths)[old(next) := Auth(user, owner)])
        else Swept(old(In(s)))
      ensures r.Granted? ==> r.id == old(next)
    {
      hide Sweep;
      authTokens := EraseExpired(authTokens, auths.Keys);
      if !valid { return InvalidCredentials; }
      var taken := IsNameTaken(user, s);
      if taken { return AlreadyLogged; }
      r := Granted(next);
      auths := auths[next := Auth(user, owner)];
      authTokens := authTokens + [next];
      next := next + 1;
    }
  }

  /** ClientContext: `held` is its current path and requested download, with the tokens of
      the client's two managers beside them. */
  class ClientContext {
    var alive: bool
    var authTryCount: int
    var mode: Mode
    var authToken: Option<TokenId>
    var held: map<Role, TokenId>
    /** History: bad passwords since the last login. */
    var failures: nat

    function View(): Ctx
      reads this
    {
      Ctx(alive, authTryCount, mode, authToken, held, failures)
    }

    constructor ()
      ensures View() == NEW_CLIENT
    {
      alive, authTryCount, mode, authToken, held, failures := true, 0, Command, None, map[], 0;
    }

    /** set_auth_token; false stands for the exception. */
    method SetAuthToken(token: Option<TokenId>) returns (ok: bool)
      modifies this
      ensures ok == (token.None? || old(authToken).None?)
      ensures View() ==
        if token.None? then old(View()).(tries := Incremented(old(authTryCount)), failures := old(failures) + 1)
        else if old(authToken).Some? then old(View())
        else old(View()).(auth := token, tries := 0, failures := 0)
    {
      ok := true;
      if token.None? {
        authTryCount := Incremented(authTryCount);
        failures := failures + 1;
      } else if authToken.Some? {
        ok := false;
      } else {
        authToken := token;
        authTryCount, failures := 0, 0;
      }
    }
  }

  /** The next number is neither that of a login nor at most that of the client's lock. */
  ghost predicate Numbered(s: State, c: ClientId)
    requires c in s.clients
  {
    s.next !in s.auths && (WorkDir in s.clients[c].held ==> s.clients[c].held[WorkDir] < s.next)
  }

  lemma InvIsNumbered(s: State, c: ClientId)
    requires Inv(s) && c in s.clients
    ensures Numbered(s, c)
  {
    assert s.next in s.auths ==> AuthOk(s, s.next);
    if WorkDir in s.clients[c].held {
      assert HeldOk(s, c, WorkDir) && LockOk(s, s.clients[c].held[WorkDir]);
    }
  }

  lemma GrantWorkDir(s: State, c: ClientId, path: Path)
    requires c in s.clients && (WorkDir in s.clients[c].held ==> s.clients[c].held[WorkDir] < s.next)
    ensures var ctx, locks := s.clients[c], s.locks[s.next := Lock(path, c, WorkDir, Plain)];
      Grant(s, c, WorkDir, path, Plain) ==
        SetCtx(Listed(s), c, ctx.(held := ctx.held[WorkDir := s.next]))
          .(locks := if WorkDir in ctx.held then locks - {ctx.held[WorkDir]} else locks)
  {
    hide Sweep;
    var ctx, lock := s.clients[c], Lock(path, c, WorkDir, Plain);
    if WorkDir in ctx.held {
      assert s.locks[s.next := lock] - {ctx.held[WorkDir]} == (s.locks - {ctx.held[WorkDir]})[s.next := lock];
      assert (ctx.held - {WorkDir})[WorkDir := s.next] == ctx.held[WorkDir := s.next];
    }
  }

  class AuthCommand {
    const server: ServerContext
    const client: ClientContext
    const c: ClientId

    /** A server state with the two contexts in it. */
    ghost function In(s: State): State
      reads server, client
    {
      server.In(s).(clients := s.clients[c := client.View()])
    }

    constructor (server: ServerContext, client: ClientContext, c: ClientId)
      ensures this.server == server && this.client == client && this.c == c
    {
      this.server, this.client, this.c := server, client, c;
    }

    /** set_path_lock: the lock that is replaced dies. */
    method SetPathLock(id: TokenId)
      modifies server, client
      ensures client.View() == old(client.View()).(held := old(client.held)[WorkDir := id])
      ensures server.authTokens == old(server.authTokens) && server.auths == old(server.auths)
      ensures server.pathLocks == old(server.pathLocks) && server.next == old(server.next)
      ensures server.locks ==
        if WorkDir in old(client.held) then old(server.locks) - {old(client.held)[WorkDir]} else old(server.locks)
    {
      if WorkDir in client.held {
        server.locks := server.locks - {client.held[WorkDir]};
      }
      client.held := client.held[WorkDir := id];
    }

    /** The client goes to the root directory. */
    method Enter(ghost s: State)
      requires WorkDir in client.held ==> client.held[WorkDir] < server.next
      modifies server, client
      ensures In(s) == Grant(old(In(s)), c, WorkDir, server.root, Plain)
      ensures client.authToken == old(client.authToken)
    {
      hide Sweep;
      GrantWorkDir(In(s), c, server.root);
      var id := server.InsertPathLock(Lock(server.root, c, WorkDir, Plain), s);
      SetPathLock(id);
    }

    /** A bad password: the third one kills. */
    method Fail(ghost s: State)
      modifies client
      ensures In(s) == SetCtx(old(In(s)), c, Failed(old(client.View())))
      ensures client.authToken == old(client.authToken)
      ensures client.alive == (old(client.alive) && client.authTryCount != 3)
    {
      var _ := client.SetAuthToken(None);
      if client.authTryCount == MAX_TRY_COUNT {
        client.alive := false;
      }
      assert old(In(s)).clients[c := client.View()] == In(s).clients;
    }

    /** Auth::execute */
    method Execute(user: User, valid: bool, ghost s: State) returns (thrown: bool)
      requires Inv(In(s))
      modifies server, client
      ensures In(s) == Authorise(old(In(s)), c, user, valid)
      ensures !thrown <==> valid && old(client.authToken).None? && client.authToken.Some?
    {
      hide Inv, Sweep, Grant, NameTaken;
      InvIsNumbered(In(s), c);
      thrown := true;
      ghost var before := In(s);
      var r := server.AuthorizeUser(c, user, valid, before);
      if r.Granted? {
        var ok := client.SetAuthToken(Some(r.id));
        if ok {
          assert In(s) == LoggedIn(ListedAuth(Swept(before)), c, user, before.next);
          Enter(s);
          thrown := false;
        } else {
          server.auths := server.auths - {r.id};
          assert server.auths == before.auths;
        }
      } else if r.InvalidCredentials? {
        Fail(s);
      }
    }
  }
}
