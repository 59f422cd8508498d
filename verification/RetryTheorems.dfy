/** What `ul` with `retry` does, in every reachable state. */
module RetryTheorems {
  import opened Options
  import opened Paths
  import opened Disks
  import opened Uploads
  import opened ProtocolMode
  import opened ServerState
  import opened ServerSafety
  import opened ServerRuns
  import opened ServerTheorems
  import opened CommandEffects

  /** Whether the destination is free does not depend on the record. */
  lemma ForgetMayUpload(s: State, user: User, path: Path, fits: bool)
    requires path != [] && !Inside(s.root, path)
    ensures MayUpload(Forget(s, user), path, fits) <==> MayUpload(s, path, fits)
  {
    TemporaryInside(s.root, user);
    assert Inside(s.root, Parent(path)) ==> Inside(s.root, path);
    var s' := Forget(s, user);
    assert s'.locks == s.locks && s'.lockList == s.lockList;
    assert IsHeld(s', path) <==> IsHeld(s, path);
    hide IsHeld;
  }

  lemma ForgottenNone(d: Disk, root: Path, u: User)
    ensures RecordOf(Forgotten(d, root, u), root, u) == None
  {
  }

  lemma OpenedNone(d: Disk, root: Path, h: Handle, t: Token)
    ensures RecordOf(Opened(d, root, h, t), root, t.stem) == None
  {
    hide Forgotten, RecordOf;
    var p := PartialPath(root, t.stem);
    var node := if t.offset != 0 && p in d.tree then d.tree[p] else File("");
    ForgottenNone(Disk(d.tree[p := node], d.open[h := p]), root, t.stem);
  }

  lemma ReceiveResult(s: State, c: ClientId, t: Token)
    requires c in s.clients
    ensures var s' := Receive(s, c, t);
      && c in s'.clients && s'.clients[c].mode == Upload && s'.root == s.root
      && s'.disk == if Openable(s.disk.tree, s.root, t.stem) then Opened(s.disk, s.root, s.next, t) else s.disk
  {
    hide Grant, Opened, Openable;
    GrantShape(s, c, Storing, t.path, Store(t.size, t.offset, t.stem, Openable(s.disk.tree, s.root, t.stem)));
  }

  /** A retry uses up the record in any case; it starts an upload if and only if the
      destination is free. One that is refused does nothing else. */
  lemma RetryUsesUpRecord(s: State, c: ClientId, fits: bool)
    requires Inv(s) && Ready(s, c) && RecordOf(s.disk, s.root, UserOf(s, c)).Some?
    ensures var s', user := Step(s, DoUlRetry(c, fits)), UserOf(s, c);
      var r := RecordOf(s.disk, s.root, user).value;
      && RecordOf(s'.disk, s.root, user) == None && c in s'.clients
      && (s'.clients[c].mode == Upload <==> FreeToUpload(s, r.path, fits))
      && (s'.clients[c].mode != Upload ==> s' == Forget(s, user))
  {
    hide Inv, TreeInv, LockInv, AuthInv, CtxInv, Receive, RecordOf, Forgotten, MayUpload, FreeToUpload;
    hide UlRetry, UserOf, Opened, Openable;
    var user := UserOf(s, c);
    var r := RecordOf(s.disk, s.root, user).value;
    RetryRecord(s, c);
    InvParts(s);
    FreeExactly(s, r.path, fits);
    ForgottenNone(s.disk, s.root, user);
    ForgetMayUpload(s, user, r.path, fits);
    RetryResult(s, c, fits);
    if MayUpload(s, r.path, fits) {
      var t := Token(r.path, r.size, r.offset, user);
      ReceiveResult(Forget(s, user), c, t);
      OpenedNone(Forget(s, user).disk, s.root, s.next, t);
    }
  }

  lemma RetryRecord(s: State, c: ClientId)
    requires Inv(s) && Ready(s, c) && RecordOf(s.disk, s.root, UserOf(s, c)).Some?
    ensures RecordOk(s.root, RecordOf(s.disk, s.root, UserOf(s, c)).value) && s.clients[c].mode != Upload
  {
    hide LockInv, AuthInv, CtxInv, RecordOf, DiskOk;
    RecordIsOk(s, UserOf(s, c));
  }

  lemma RetryResult(s: State, c: ClientId, fits: bool)
    requires Ready(s, c) && RecordOf(s.disk, s.root, UserOf(s, c)).Some?
    ensures var user := UserOf(s, c);
      var r, s1 := RecordOf(s.disk, s.root, user).value, Forget(s, user);
      Step(s, DoUlRetry(c, fits)) ==
        if MayUpload(s1, r.path, fits) then Receive(s1, c, Token(r.path, r.size, r.offset, user)) else s1
  {
    hide RecordOf, Forgotten, MayUpload, Receive;
  }

  /** An upload that a retry starts goes where the record says, from where it says. */
  lemma RetryStarts(s: State, c: ClientId, fits: bool)
    requires Inv(s) && Ready(s, c) && RecordOf(s.disk, s.root, UserOf(s, c)).Some?
    ensures var s', user := Step(s, DoUlRetry(c, fits)), UserOf(s, c);
      var r := RecordOf(s.disk, s.root, user).value;
      FreeToUpload(s, r.path, fits) ==>
        && Uploading(s', c, r.path, r.size, r.offset, user, CanOpen(s, user))
        && s'.clients[c].alive == (s.clients[c].alive && CanOpen(s, user))
  {
    hide Inv, TreeInv, LockInv, AuthInv, CtxInv, Receive, RecordOf, Forgotten, MayUpload, FreeToUpload, CanOpen;
    hide UserOf, Step, Openable;
    var user := UserOf(s, c);
    var r := RecordOf(s.disk, s.root, user).value;
    RetryRecord(s, c);
    InvParts(s);
    FreeExactly(s, r.path, fits);
    ForgetMayUpload(s, user, r.path, fits);
    RetryResult(s, c, fits);
    ForgottenKeepsPartial(s.disk, s.root, user, r.path);
    OpenExactly(s, user);
    OpenExactly(Forget(s, user), user);
    if MayUpload(s, r.path, fits) { ReceiveStarts(Forget(s, user), c, Token(r.path, r.size, r.offset, user)); }
  }

  /** Without a record, a retry does nothing. */
  lemma NothingToRetry(s: State, c: ClientId, fits: bool)
    requires Ready(s, c) && RecordOf(s.disk, s.root, UserOf(s, c)).None?
    ensures Step(s, DoUlRetry(c, fits)) == s
  {
    hide RecordOf;
  }

  /** So after a refusal there is nothing left to resume. */
  lemma RefusedIsLost(s: State, c: ClientId, fits: bool, again: bool)
    requires Inv(s) && Ready(s, c) && RecordOf(s.disk, s.root, UserOf(s, c)).Some?
    requires !FreeToUpload(s, RecordOf(s.disk, s.root, UserOf(s, c)).value.path, fits)
    ensures var s' := Step(s, DoUlRetry(c, fits)); Step(s', DoUlRetry(c, again)) == s' && s' != s
  {
    hide Inv, MayUpload, FreeToUpload;
    RetryUsesUpRecord(s, c, fits);
  }

  // ---------- when a retry is exact ----------

  /** The user's partial file is what the record says it is. */
  ghost predicate PartialIs(d: Disk, root: Path, u: User, text: string) {
    PartialPath(root, u) in d.tree && TextOf(d.tree[PartialPath(root, u)]) == text
  }

  lemma AppendsExactly(a: string, source: string, o: nat)
    requires o <= |source|
    ensures a + source[o..] == source <==> a == source[..o]
  {
    assert source[..o] + source[o..] == source;
    if a + source[o..] == source {
      assert |a| == o && (a + source[o..])[..o] == a;
    }
  }

  // ---------- when an upload in progress ends as its source ----------

  /** What is at the partial path once the missing bytes have been written: they are
      appended there only if that is where the upload's open file still is. */
  lemma FilledPartial(s: State, c: ClientId, bytes: string)
    requires Receives(s, c) && |bytes| >= TokenOf(s, c).size - TokenOf(s, c).offset
    requires PartialPath(s.root, TokenOf(s, c).stem) in s.disk.tree
    ensures var t, p := TokenOf(s, c), PartialPath(s.root, TokenOf(s, c).stem);
      var missing := bytes[..t.size - t.offset];
      && p in Filled(s, c, bytes).tree
      && TextOf(Filled(s, c, bytes).tree[p]) ==
           TextOf(s.disk.tree[p]) + if Writing(s.disk, s.root, FileOf(s, c), t.stem) then missing else ""
  {
    var t, h, p := TokenOf(s, c), FileOf(s, c), PartialPath(s.root, TokenOf(s, c).stem);
    var text := TextOf(s.disk.tree[p]);
    assert text + "" == text;
  }

  /** In every state, with or without tampering, an upload that ends with the rest
      of `source` makes its destination the source if and only if its open file is still at
      the partial path and holds what the offset says, or it is not and the whole source is
      there. */
  lemma FinishIsSourceExactly(s: State, c: ClientId, source: string)
    requires Receives(s, c) && TokenOf(s, c).size == |source|
    requires Finishes(s, c, source[TokenOf(s, c).offset..])
    ensures var t := TokenOf(s, c);
      var s', here := Step(s, DoData(c, source[t.offset..])), Writing(s.disk, s.root, FileOf(s, c), t.stem);
      && t.path in s'.disk.tree
      && (TextOf(s'.disk.tree[t.path]) == source <==>
            PartialIs(s.disk, s.root, t.stem, if here then source[..t.offset] else source))
  {
    hide Filled, Finishes, Step, Receives, TokenOf, FileOf, Writing;
    var t := TokenOf(s, c);
    var bytes, p := source[t.offset..], PartialPath(s.root, t.stem);
    FinishedPartial(s, c, bytes);
    FilledPartial(s, c, bytes);
    assert bytes[..t.size - t.offset] == bytes;
    AppendsExactly(TextOf(s.disk.tree[p]), source, t.offset);
    assert TextOf(s.disk.tree[p]) + "" == TextOf(s.disk.tree[p]);
  }

  lemma FinishedPartial(s: State, c: ClientId, bytes: string)
    requires Receives(s, c) && Finishes(s, c, bytes)
    ensures var t, p, s' := TokenOf(s, c), PartialPath(s.root, TokenOf(s, c).stem), Step(s, DoData(c, bytes));
      && |bytes| >= t.size - t.offset && p in s.disk.tree && p in Filled(s, c, bytes).tree
      && t.path in s'.disk.tree && s'.disk.tree[t.path] == Filled(s, c, bytes).tree[p]
  {
    DataDisk(s, c, bytes);
    StepIsData(s, c, bytes);
    hide Data, Step;
    var p := PartialPath(s.root, TokenOf(s, c).stem);
    assert p in Filled(s, c, bytes).tree;
  }

  lemma StepIsData(s: State, c: ClientId, bytes: string)
    requires Receives(s, c)
    ensures Step(s, DoData(c, bytes)) == Data(s, c, bytes)
  {
    hide Data;
  }

  /** The disk through a retry that sends the rest of `source` at once. */
  lemma ResumedDisk(d: Disk, root: Path, h: Handle, t: Token, source: string)
    requires ValidToken(t) && t.size == |source| && !Inside(root, t.path)
    requires t.path !in d.tree && Openable(d.tree, root, t.stem)
    ensures var r := Committed(Opened(d, root, h, t), root, h, t, source[t.offset..]);
      && (r.token.None? <==> IsDir(d.tree, Parent(t.path)))
      && (r.token.None? ==>
            && t.path in r.disk.tree
            && (TextOf(r.disk.tree[t.path]) == source <==>
                  t.offset == 0 || PartialIs(d, root, t.stem, source[..t.offset])))
  {
    var p, o := PartialPath(root, t.stem), t.offset;
    TemporaryInside(root, t.stem);
    TemporaryApart(root, t.stem, t.stem);
    assert Inside(root, Parent(t.path)) ==> Inside(root, t.path);
    var node := if o != 0 && p in d.tree then d.tree[p] else File("");
    OpenedFacts(d, root, h, t);
    AppendsExactly(TextOf(node), source, o);
    assert o == 0 ==> source[..o] == "";
    assert source[o..][..|source| - o] == source[o..];
    hide Opened, Openable, Written, Inside, TextOf;
    ResumedRename(d, Opened(d, root, h, t), root, h, t, source[o..]);
  }

  /** The rest of the bytes is written and the file renamed, if the destination is in a
      directory. */
  lemma ResumedRename(d: Disk, d1: Disk, root: Path, h: Handle, t: Token, rest: string)
    requires ValidToken(t) && !Inside(root, t.path) && |rest| == t.size - t.offset && t.path !in d.tree
    requires var p := PartialPath(root, t.stem); h in d1.open && d1.open[h] == p && IsFile(d1.tree, p)
    requires forall q: Path | !Inside(root, q) :: (q in d1.tree <==> q in d.tree) && (q in d.tree ==> d1.tree[q] == d.tree[q])
    ensures var r, p := Committed(d1, root, h, t, rest), PartialPath(root, t.stem);
      && (r.token.None? <==> IsDir(d.tree, Parent(t.path)))
      && (r.token.None? ==> t.path in r.disk.tree && TextOf(r.disk.tree[t.path]) == TextOf(d1.tree[p]) + rest)
  {
    TemporaryInside(root, t.stem);
    assert Inside(root, Parent(t.path)) ==> Inside(root, t.path);
    assert rest[..|rest|] == rest;
    WrittenText(d1, h, rest);
    hide Written, TextOf;
  }

  lemma WrittenText(d: Disk, h: Handle, bytes: string)
    requires h in d.open && IsFile(d.tree, d.open[h])
    ensures var d' := Written(d, h, bytes);
      && IsFile(d'.tree, d.open[h]) && TextOf(d'.tree[d.open[h]]) == TextOf(d.tree[d.open[h]]) + bytes
      && (forall q | q != d.open[h] :: (q in d'.tree <==> q in d.tree) && (q in d.tree ==> d'.tree[q] == d.tree[q]))
  {
    assert bytes == "" ==> TextOf(d.tree[d.open[h]]) + bytes == TextOf(d.tree[d.open[h]]);
  }

  lemma OpenedFacts(d: Disk, root: Path, h: Handle, t: Token)
    requires Openable(d.tree, root, t.stem)
    ensures var d', p := Opened(d, root, h, t), PartialPath(root, t.stem);
      && h in d'.open && d'.open[h] == p && p in d'.tree
      && d'.tree[p] == (if t.offset != 0 && p in d.tree then d.tree[p] else File("")) && IsFile(d'.tree, p)
      && (forall q: Path | !Inside(root, q) :: (q in d'.tree <==> q in d.tree) && (q in d.tree ==> d'.tree[q] == d.tree[q]))
  {
    TemporaryInside(root, t.stem);
    TemporaryApart(root, t.stem, t.stem);
  }

  /** A retry in which the client sends the rest of its file at once ends with that file in
      place if and only if the destination is free and in a directory, the temporary file
      can be opened, and it is still what the record says. */
  lemma RetryExact(s: State, c: ClientId, fits: bool, source: string)
    requires Inv(s) && Ready(s, c) && RecordOf(s.disk, s.root, UserOf(s, c)).Some?
    requires RecordOf(s.disk, s.root, UserOf(s, c)).value.size == |source|
    ensures var user := UserOf(s, c);
      var r := RecordOf(s.disk, s.root, user).value;
      && r.path != [] && r.offset <= |source|
      && var s1 := Step(s, DoUlRetry(c, fits));
        var s2 := Step(s1, DoData(c, source[r.offset..]));
        && c in s1.clients && c in s2.clients
        && (s1.clients[c].mode == Upload && s2.clients[c].mode == Command
            && r.path in s2.disk.tree && TextOf(s2.disk.tree[r.path]) == source
            <==>
            && FreeToUpload(s, r.path, fits) && IsDir(s.disk.tree, r.path[..|r.path| - 1]) && CanOpen(s, user)
            && (r.offset == 0 || PartialIs(s.disk, s.root, user, source[..r.offset])))
        && (FreeToUpload(s, r.path, fits) && IsDir(s.disk.tree, r.path[..|r.path| - 1]) && CanOpen(s, user) ==>
              s2.clients[c].mode == Command && r.path in s2.disk.tree)
  {
    hide Inv, TreeInv, LockInv, AuthInv, CtxInv, RecordOf, Forgotten, PartialIs, Openable, UserOf, Receive;
    hide Opened, Committed, IsHeld, MayUpload, FreeToUpload, CanOpen;
    hide RecordOk, Step;
    var user := UserOf(s, c);
    var r := RecordOf(s.disk, s.root, user).value;
    RetryRecord(s, c);
    RecordOutside(s.root, r);
    RetryUsesUpRecord(s, c, fits);
    InvParts(s);
    FreeExactly(s, r.path, fits);
    OpenExactly(s, user);
    var s1 := Step(s, DoUlRetry(c, fits));
    if !MayUpload(s, r.path, fits) {
      DataClients(s1, c, source[r.offset..]);
    } else {
      RetryResumes(s, c, fits, source);
    }
  }

  lemma DataClients(s: State, c: ClientId, bytes: string)
    requires c in s.clients
    ensures c in Step(s, DoData(c, bytes)).clients
  {
    UploadMild(s, DoData(c, bytes));
    hide Step;
  }

  lemma RetryResumes(s: State, c: ClientId, fits: bool, source: string)
    requires Inv(s) && Ready(s, c) && RecordOf(s.disk, s.root, UserOf(s, c)).Some?
    requires var r := RecordOf(s.disk, s.root, UserOf(s, c)).value;
      && r.path != [] && !Inside(s.root, r.path) && r.offset <= r.size && r.size == |source| && MayUpload(s, r.path, fits)
    ensures var user := UserOf(s, c);
      var r := RecordOf(s.disk, s.root, user).value;
      var s2 := Step(Step(s, DoUlRetry(c, fits)), DoData(c, source[r.offset..]));
      && c in s2.clients
      && (s2.clients[c].mode == Command && r.path in s2.disk.tree && TextOf(s2.disk.tree[r.path]) == source
          <==>
          && IsDir(s.disk.tree, Parent(r.path)) && Openable(s.disk.tree, s.root, user)
          && (r.offset == 0 || PartialIs(s.disk, s.root, user, source[..r.offset])))
      && (IsDir(s.disk.tree, Parent(r.path)) && Openable(s.disk.tree, s.root, user) ==>
            s2.clients[c].mode == Command && r.path in s2.disk.tree)
  {
    hide Inv, RecordOf, Forgotten, PartialIs, Openable, UserOf, Receive, Opened, Committed, IsHeld, Step;
    var user := UserOf(s, c);
    var r, s1 := RecordOf(s.disk, s.root, user).value, Forget(s, user);
    var t, bytes := Token(r.path, r.size, r.offset, user), source[r.offset..];
    ForgetMayUpload(s, user, r.path, fits);
    ForgottenKeepsPartial(s.disk, s.root, user, r.path);
    RetryResult(s, c, fits);
    if Openable(s.disk.tree, s.root, user) {
      ReceiveToken(s1, c, t);
      ResumedDisk(s1.disk, s.root, s.next, t, source);
      DataOutcome(Receive(s1, c, t), c, bytes);
    } else {
      NotBegun(s1, c, t, bytes);
    }
  }

  /** A temporary file that cannot be opened: the client stays in upload mode, dead. */
  lemma NotBegun(s: State, c: ClientId, t: Token, bytes: string)
    requires c in s.clients && !Openable(s.disk.tree, s.root, t.stem)
    ensures var s' := Step(Receive(s, c, t), DoData(c, bytes)); c in s'.clients && s'.clients[c].mode == Upload
  {
    hide Grant, Openable, Opened;
    GrantShape(s, c, Storing, t.path, Store(t.size, t.offset, t.stem, false));
  }

  lemma RecordOutside(root: Path, r: Record)
    requires RecordOk(root, r)
    ensures !Inside(root, r.path) && r.path != [] && r.offset <= r.size
  {
  }

  lemma DataOutcome(s: State, c: ClientId, bytes: string)
    requires Receives(s, c)
    ensures var s', r := Step(s, DoData(c, bytes)), Committed(s.disk, s.root, FileOf(s, c), TokenOf(s, c), bytes);
      s'.disk == r.disk && c in s'.clients && (s'.clients[c].mode == Command <==> r.token.None?)
  {
    hide Committed;
  }

  lemma ForgottenKeepsPartial(d: Disk, root: Path, u: User, path: Path)
    requires path != [] && !Inside(root, path)
    ensures var d' := Forgotten(d, root, u);
      && Openable(d.tree, root, u) == Openable(d'.tree, root, u)
      && (forall text :: PartialIs(d', root, u, text) <==> PartialIs(d, root, u, text))
      && (path in d'.tree <==> path in d.tree) && IsDir(d.tree, Parent(path)) == IsDir(d'.tree, Parent(path))
  {
    TemporaryInside(root, u);
    TemporaryApart(root, u, u);
    assert Inside(root, Parent(path)) ==> Inside(root, path);
  }

  lemma ReceiveToken(s: State, c: ClientId, t: Token)
    requires c in s.clients && Openable(s.disk.tree, s.root, t.stem) && ValidToken(t)
    ensures var s' := Receive(s, c, t);
      && Receives(s', c) && TokenOf(s', c) == t && FileOf(s', c) == s.next
      && s'.disk == Opened(s.disk, s.root, s.next, t) && s'.root == s.root
  {
    hide Grant, Opened;
    GrantShape(s, c, Storing, t.path, Store(t.size, t.offset, t.stem, true));
  }
}
