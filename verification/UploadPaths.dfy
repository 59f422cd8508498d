/** No two uploads go to the same path, in every run. */
module UploadPaths {
  import opened Options
  import opened Paths
  import opened Disks
  import opened Uploads
  import opened ProtocolMode
  import opened ServerState
  import opened ServerSafety
  import opened ServerRuns
  import opened ServerTheorems
  import opened CommandEffects
  import opened UploadTheorems
  import opened RetryTheorems

  ghost predicate PathsApart(s: State) {
    forall i, j | i in s.locks && j in s.locks && i != j && s.locks[i].role == Storing && s.locks[j].role == Storing ::
      s.locks[i].path != s.locks[j].path
  }

  /** The upload was there before, with this path. */
  ghost predicate Continued(s: State, s': State, i: TokenId)
    requires i in s'.locks
  {
    i in s.locks && s.locks[i].role == Storing && s.locks[i].path == s'.locks[i].path
  }

  /** The upload is new, by c, to a path that no lock was on. */
  ghost predicate Started(s: State, s': State, c: ClientId, i: TokenId)
    requires i in s'.locks
  {
    s'.locks[i].owner == c && forall k <- s.locks :: s.locks[k].path != s'.locks[i].path
  }

  lemma StoringStores(s: State, i: TokenId)
    requires Inv(s) && i in s.locks
    ensures s.locks[i].role == Storing <==> s.locks[i].payload.Store?
  {
    InvParts(s);
    hide Inv, TreeInv;
    PlacedOf(s, i);
  }

  lemma OwnUpload(s: State, c: ClientId, path: Path, size: nat, offset: nat, user: User, begun: bool, i: TokenId)
    requires Inv(s) && Uploading(s, c, path, size, offset, user, begun)
    requires i in s.locks && s.locks[i].payload.Store? && s.locks[i].owner == c
    ensures s.locks[i].path == path
  {
    hide Inv;
    StoreOwner(s, i);
  }

  /** A lock of an upload of the acting client, after its step. */
  ghost predicate Own(s': State, e: Event, i: TokenId) {
    i in s'.locks && s'.locks[i].role == Storing && s'.locks[i].owner == e.c
  }

  /** A step that the client cannot take. */
  lemma NoStep(s: State, e: Event)
    requires (e.DoUl? && !(Ready(s, e.c) && Component(e.name))) || (e.DoUlRetry? && !Ready(s, e.c)) || (e.DoData? && !Receives(s, e.c))
    ensures Step(s, e) == s
  {
    hide Ready, Receives;
  }

  lemma UlOrigin(s: State, e: Event, i: TokenId)
    requires Inv(s) && e.DoUl? && Inv(Step(s, e)) && Own(Step(s, e), e, i)
    ensures Continued(s, Step(s, e), i) || Started(s, Step(s, e), e.c, i)
  {
    hide Inv, TreeInv, LockInv, AuthInv, CtxInv, Step, Ready, Cwd, UserOf, CanOpen;
    var s', c := Step(s, e), e.c;
    if Ready(s, c) && Component(e.name) {
      InvParts(s);
      StoringStores(s', i);
      UlEffect(s, c, e.name, e.source, e.fits);
      if s'.clients[c].mode == Upload {
        OwnUpload(s', c, Cwd(s, c) + [e.name], |e.source|, 0, UserOf(s, c), CanOpen(s, UserOf(s, c)), i);
      }
    } else {
      NoStep(s, e);
    }
  }

  lemma RetryOrigin(s: State, e: Event, i: TokenId)
    requires Inv(s) && e.DoUlRetry? && Inv(Step(s, e)) && Own(Step(s, e), e, i)
    ensures Continued(s, Step(s, e), i) || Started(s, Step(s, e), e.c, i)
  {
    hide Inv, Step, Ready, UserOf, CanOpen, RecordOf;
    var s', c := Step(s, e), e.c;
    if !Ready(s, c) {
      NoStep(s, e);
    } else if RecordOf(s.disk, s.root, UserOf(s, c)).None? {
      NothingToRetry(s, c, e.fits);
    } else {
      var user := UserOf(s, c);
      var r := RecordOf(s.disk, s.root, user).value;
      StoringStores(s', i);
      RetryUsesUpRecord(s, c, e.fits);
      RetryStarts(s, c, e.fits);
      if FreeToUpload(s, r.path, e.fits) { OwnUpload(s', c, r.path, r.size, r.offset, user, CanOpen(s, user), i); }
    }
  }

  lemma DataOrigin(s: State, e: Event, i: TokenId)
    requires Inv(s) && e.DoData? && Inv(Step(s, e)) && Own(Step(s, e), e, i)
    ensures Continued(s, Step(s, e), i)
  {
    hide Inv, TreeInv, LockInv, AuthInv, CtxInv, Step, Data, Receives;
    var s', c := Step(s, e), e.c;
    if Receives(s, c) {
      InvParts(s);
      StepIsData(s, c, e.bytes);
      StoringStores(s', i);
      StoreOwner(s', i);
      DataKeepsPath(s, c, e.bytes);
    } else {
      NoStep(s, e);
    }
  }

  lemma DataKeepsPath(s: State, c: ClientId, bytes: string)
    requires LockInv(s) && Receives(s, c)
    ensures var s', h := Data(s, c, bytes), FileOf(s, c);
      && h in s.locks && s.locks[h].role == Storing && c in s'.clients
      && (s'.clients[c].mode == Upload ==>
            Storing in s'.clients[c].held && s'.clients[c].held[Storing] == h && h in s'.locks && s'.locks[h].path == s.locks[h].path)
  {
    DataShape(s, c, bytes);
    OwnLock(s, c);
    hide LockInv, Data;
  }

  lemma Origin(s: State, e: Event, i: TokenId)
    requires Inv(s) && Inv(Step(s, e)) && i in Step(s, e).locks && Step(s, e).locks[i].role == Storing
    ensures Continued(s, Step(s, e), i) || Started(s, Step(s, e), e.c, i)
  {
    hide Inv, Step, Started;
    var s' := Step(s, e);
    if s'.locks[i].owner == e.c && e.DoUl? {
      UlOrigin(s, e, i);
    } else if s'.locks[i].owner == e.c && e.DoUlRetry? {
      RetryOrigin(s, e, i);
    } else if s'.locks[i].owner == e.c && e.DoData? {
      DataOrigin(s, e, i);
    } else {
      StoringStores(s', i);
      LockBefore(s, e, i);
    }
  }

  lemma PathsStayApart(s: State, e: Event)
    requires Inv(s) && PathsApart(s)
    ensures PathsApart(Step(s, e))
  {
    hide Inv, Step;
    StepKeeps(s, e);
    var s' := Step(s, e);
    forall i, j | i in s'.locks && j in s'.locks && i != j && s'.locks[i].role == Storing && s'.locks[j].role == Storing
      ensures s'.locks[i].path != s'.locks[j].path
    {
      Origin(s, e, i);
      Origin(s, e, j);
      if !Continued(s, s', i) && !Continued(s, s', j) { SameOwner(s', i, j); }
    }
  }

  /** One client, one upload. */
  lemma SameOwner(s: State, i: TokenId, j: TokenId)
    requires Inv(s) && i in s.locks && j in s.locks && s.locks[i].role == Storing && s.locks[j].role == Storing
    ensures s.locks[i].owner == s.locks[j].owner ==> i == j
  {
    hide Inv;
    StoringStores(s, i);
    StoringStores(s, j);
    StoreOwner(s, i);
    StoreOwner(s, j);
  }

  lemma {:induction false} RunStaysApart(s: State, events: seq<Event>)
    requires Inv(s) && PathsApart(s)
    ensures PathsApart(Run(s, events))
    decreases |events|
  {
    hide Inv, Step, PathsApart;
    if events != [] {
      StepKeeps(s, events[0]);
      PathsStayApart(s, events[0]);
      RunStaysApart(Step(s, events[0]), events[1..]);
    }
  }

  /** After every run, two different uploads in progress have different destinations. */
  lemma UploadsGoApart(root: Path, tree: Tree, events: seq<Event>)
    requires DiskOk(root, Disk(tree, map[]))
    ensures PathsApart(Run(Initial(root, tree), events))
  {
    hide Inv, Run, DiskOk;
    InitialInv(root, tree);
    RunStaysApart(Initial(root, tree), events);
  }
}
