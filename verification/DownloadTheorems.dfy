/** Downloads against the shared state: what a `dl` announces and what the `dls` after it
    sends, with anything happening in between. */
module DownloadTheorems {
  import opened Options
  import opened Paths
  import opened Disks
  import opened Uploads
  import opened ProtocolMode
  import opened Widths
  import opened ServerState
  import opened ServerSafety
  import opened ServerRuns
  import opened ServerFrames
  import opened ServerTheorems
  import Connection
  import Client

  // ---------- the text of a file that upload bytes may overwrite ----------

  /** What upload bytes that overwrite the file at p make of its text. */
  function NewText(s: State, c: ClientId, bytes: string, p: Path, text: string): string
    requires Receives(s, c)
  {
    var t := TokenOf(s, c);
    var missing, src := t.size - t.offset, PartialPath(s.root, t.stem);
    if p == t.path && Finishes(s, c, bytes) then TextOf(Filled(s, c, bytes).tree[src])
    else text + bytes[..if |bytes| < missing then |bytes| else missing]
  }

  /** The text at p after some events, from the events that overwrite it. */
  function TextAfter(s: State, events: seq<Event>, p: Path, text: string): string
    decreases |events|
  {
    if events == [] then text
    else
      var e := events[0];
      TextAfter(Step(s, e), events[1..], p, if Overwrites(s, e, p) then NewText(s, e.c, e.bytes, p, text) else text)
  }

  ghost predicate Undisturbed(s: State, events: seq<Event>, p: Path)
    decreases |events|
  {
    events != [] ==> !Overwrites(s, events[0], p) && Undisturbed(Step(s, events[0]), events[1..], p)
  }

  lemma {:induction false} UndisturbedText(s: State, events: seq<Event>, p: Path, text: string)
    requires Undisturbed(s, events, p)
    ensures TextAfter(s, events, p, text) == text
    decreases |events|
  {
    hide Step, Overwrites;
    if events != [] { UndisturbedText(Step(s, events[0]), events[1..], p, text); }
  }

  lemma WrittenNode(d: Disk, h: Handle, bytes: string, p: Path)
    requires p in d.tree && h in d.open && d.open[h] == p && bytes != ""
    ensures p in Written(d, h, bytes).tree && TextOf(Written(d, h, bytes).tree[p]) == TextOf(d.tree[p]) + bytes
  {
  }

  lemma FilledText(s: State, c: ClientId, bytes: string, p: Path)
    requires Receives(s, c) && p in s.disk.tree && Changes(s, c, bytes, p)
    requires !(p == TokenOf(s, c).path && Finishes(s, c, bytes))
    ensures p in Filled(s, c, bytes).tree
    ensures TextOf(Filled(s, c, bytes).tree[p]) == NewText(s, c, bytes, p, TextOf(s.disk.tree[p]))
  {
    hide Finishes, Written;
    var t := TokenOf(s, c);
    var missing := t.size - t.offset;
    WrittenNode(s.disk, FileOf(s, c), bytes[..if |bytes| < missing then |bytes| else missing], p);
  }

  lemma DataText(s: State, c: ClientId, bytes: string, p: Path)
    requires TreeInv(s) && LockInv(s) && Receives(s, c) && p in s.disk.tree && !Inside(s.root, p)
    requires Changes(s, c, bytes, p)
    ensures p in Data(s, c, bytes).disk.tree
    ensures TextOf(Data(s, c, bytes).disk.tree[p]) == NewText(s, c, bytes, p, TextOf(s.disk.tree[p]))
  {
    var t, d := TokenOf(s, c), Filled(s, c, bytes);
    var src := PartialPath(s.root, t.stem);
    hide TreeInv, LockInv, Filled, Data, Replaced, Receives, TokenOf, FileOf, IsFile, IsDir, Inside;
    TemporaryInside(s.root, t.stem);
    DataDisk(s, c, bytes);
    FilledKind(s, c, bytes, p);
    if Finishes(s, c, bytes) { ReplacedExact(d, src, t.path, p); }
    if !(p == t.path && Finishes(s, c, bytes)) { FilledText(s, c, bytes, p); }
    hide Changes;
  }

  /** A lock on a file to be sent. */
  ghost predicate OnFile(s: State, id: TokenId, p: Path) {
    id in s.locks && s.locks[id].path == p && (s.locks[id].role == Requested || s.locks[id].role == Sending)
  }

  lemma StepText(s: State, e: Event, id: TokenId, p: Path)
    requires Inv(s) && OnFile(s, id, p)
    ensures p in s.disk.tree && p in Step(s, e).disk.tree
    ensures TextOf(Step(s, e).disk.tree[p]) ==
      if Overwrites(s, e, p) then NewText(s, e.c, e.bytes, p, TextOf(s.disk.tree[p])) else TextOf(s.disk.tree[p])
  {
    AnchorExists(s, id);
    AnchorsStay(s, e, id);
    if Overwrites(s, e, p) {
      DataText(s, e.c, e.bytes, p);
      assert Step(s, e) == Data(s, e.c, e.bytes);
    }
    hide Inv, Step, Overwrites;
  }

  // ---------- a token that is still there was there all along ----------

  ghost predicate HoldsToken(s: State, c: ClientId, id: TokenId) {
    c in s.clients && Requested in s.clients[c].held && s.clients[c].held[Requested] == id
  }

  /** A `dl` gives its client a new token, or changes nothing that it holds. */
  lemma DlOwn(s: State, c: ClientId, name: string, offset: nat)
    requires Ready(s, c)
    ensures var s' := Dl(s, c, name, offset);
      c in s'.clients && (HoldsToken(s', c, s.next) || (s'.locks == s.locks && s'.clients == s.clients))
  {
    hide Grant, Sweep;
    var t, p := s.disk.tree, Cwd(s, c) + [name];
    if IsFile(t, p) { GrantShape(s, c, Requested, p, Fetch(|TextOf(t[p])|, offset)); }
  }

  lemma HeldBefore(s: State, e: Event, c: ClientId, id: TokenId)
    requires Inv(s) && id < s.next && HoldsToken(Step(s, e), c, id)
    ensures HoldsToken(s, c, id) && id in s.locks && id in Step(s, e).locks && Step(s, e).locks[id] == s.locks[id]
  {
    hide Inv, Step;
    InvParts(s);
    if Acts(e, c, Requested) {
      HeldBeforeDl(s, e, c, id);
    } else {
      StepSpares(s, e, c, Requested);
      HeldOf(s, c, Requested);
    }
  }

  lemma HeldBeforeDl(s: State, e: Event, c: ClientId, id: TokenId)
    requires LockInv(s) && e.DoDl? && e.c == c && id < s.next && HoldsToken(Step(s, e), c, id)
    ensures HoldsToken(s, c, id) && id in s.locks && id in Step(s, e).locks && Step(s, e).locks[id] == s.locks[id]
  {
    hide Dl, LockInv;
    if Ready(s, c) && Component(e.name) { DlOwn(s, c, e.name, e.offset); }
    HeldOf(s, c, Requested);
  }

  lemma NextGrows(s: State, e: Event)
    ensures Step(s, e).next >= s.next
  {
    hide Step;
    if e.DoRm? || e.DoRename? || e.DoMv? || e.DoCp? || e.DoMkdir? {
      TreeMild(s, e);
    } else if e.DoUl? || e.DoUlRetry? || e.DoData? {
      UploadNext(s, e);
    } else {
      OtherNext(s, e);
    }
  }

  lemma UploadNext(s: State, e: Event)
    requires e.DoUl? || e.DoUlRetry? || e.DoData?
    ensures Step(s, e).next >= s.next
  {
    hide Sweep, Opened, Openable, Committed, Forgotten, RecordOf, MayUpload;
  }

  lemma OtherNext(s: State, e: Event)
    requires !e.DoRm? && !e.DoRename? && !e.DoMv? && !e.DoCp? && !e.DoMkdir? && !e.DoUl? && !e.DoUlRetry? && !e.DoData?
    ensures Step(s, e).next >= s.next
  {
    hide Sweep, NameTaken, Transferred;
    if e.DoSent? && e.c in s.clients && s.clients[e.c].mode == Download { SentShape(s, e.c, e.count); }
  }

  lemma {:induction false} HeldThroughout(s: State, events: seq<Event>, c: ClientId, id: TokenId, p: Path)
    requires Inv(s) && id < s.next && HoldsToken(Run(s, events), c, id) && id in Run(s, events).locks
    requires OnFile(Run(s, events), id, p)
    ensures HoldsToken(s, c, id) && id in s.locks && s.locks[id] == Run(s, events).locks[id]
    ensures p in s.disk.tree && p in Run(s, events).disk.tree
    ensures TextOf(Run(s, events).disk.tree[p]) == TextAfter(s, events, p, TextOf(s.disk.tree[p]))
    decreases |events|
  {
    hide Inv, Step, Overwrites, NewText;
    if events == [] {
      AnchorExistsFile(s, id, p);
    } else {
      var e := events[0];
      var s1 := Step(s, e);
      StepKeeps(s, e);
      NextGrows(s, e);
      HeldThroughout(s1, events[1..], c, id, p);
      HeldBefore(s, e, c, id);
      StepText(s, e, id, p);
    }
  }

  lemma AnchorExistsFile(s: State, id: TokenId, p: Path)
    requires Inv(s) && OnFile(s, id, p)
    ensures p in s.disk.tree
  {
    AnchorExists(s, id);
  }

  // ---------- announced and sent ----------

  /** What start_download sets out to send: the file as it is now, from the token's offset
      to the size the file had when the token was made. */
  function Body(s: State, c: ClientId): string
    requires c in s.clients && Requested in s.clients[c].held && s.clients[c].held[Requested] in s.locks
    requires var lock := s.locks[s.clients[c].held[Requested]]; lock.payload.Fetch? && lock.path in s.disk.tree
  {
    var lock := s.locks[s.clients[c].held[Requested]];
    Part(TextOf(s.disk.tree[lock.path]), lock.payload.offset, lock.payload.size)
  }

  function Part(text: string, from: nat, to: nat): string {
    if from <= to <= |text| then text[from..to] else if from <= |text| < to then text[from..] else ""
  }

  lemma PartLength(text: string, from: nat, to: nat)
    requires from <= to
    ensures |Part(text, from, to)| == to - from <==> from == to || |text| >= to
  {
  }

  /** A length is announced for a file and an offset within it: what is left from there. */
  lemma AnnouncedExactly(s: State, c: ClientId, name: string, offset: nat, n: nat)
    requires Ready(s, c)
    ensures Announced(s, c, name, offset) == Some(n) <==>
      var p := Cwd(s, c) + [name]; IsFile(s.disk.tree, p) && |TextOf(s.disk.tree[p])| == offset + n
  {
  }

  lemma DlGrants(s: State, c: ClientId, name: string, offset: nat)
    requires Inv(s) && Ready(s, c) && Component(name) && Announced(s, c, name, offset).Some?
    ensures var s', p := Step(s, DoDl(c, name, offset)), Cwd(s, c) + [name];
      && Inv(s') && s.next < s'.next && HoldsToken(s', c, s.next) && p in s.disk.tree && s'.disk == s.disk
      && s.next in s'.locks && s'.locks[s.next] == Lock(p, c, Requested, Fetch(|TextOf(s.disk.tree[p])|, offset))
  {
    hide Inv, Grant, Step;
    StepKeeps(s, DoDl(c, name, offset));
    var p := Cwd(s, c) + [name];
    StepIsGrant(s, c, name, offset);
    GrantShape(s, c, Requested, p, Fetch(|TextOf(s.disk.tree[p])|, offset));
  }

  lemma StepIsGrant(s: State, c: ClientId, name: string, offset: nat)
    requires Ready(s, c) && Component(name) && Announced(s, c, name, offset).Some?
    ensures var p := Cwd(s, c) + [name];
      p in s.disk.tree &&
      Step(s, DoDl(c, name, offset)) == Grant(s, c, Requested, p, Fetch(|TextOf(s.disk.tree[p])|, offset))
  {
    hide Grant;
  }

  /** Whatever happens between a `dl` and the `dls` that uses its token: the file is still
      there, its text is what the last upload bytes that overwrote it made of it, and the
      body has the announced length if and only if that text is not too short; undisturbed,
      it is exactly the announced part of the file as it was. */
  lemma AnnouncedIsSent(s: State, c: ClientId, name: string, offset: nat, events: seq<Event>)
    requires Inv(s) && Ready(s, c) && Component(name) && Announced(s, c, name, offset).Some?
    requires HoldsToken(Run(Step(s, DoDl(c, name, offset)), events), c, s.next)
    ensures var p, n := Cwd(s, c) + [name], Announced(s, c, name, offset).value;
      var s1 := Step(s, DoDl(c, name, offset));
      var s2 := Run(s1, events);
      && p in s.disk.tree && p in s2.disk.tree && s.next in s2.locks
      && s2.locks[s.next] == Lock(p, c, Requested, Fetch(offset + n, offset))
      && var was := TextOf(s.disk.tree[p]);
        var text := TextAfter(s1, events, p, was);
        && TextOf(s2.disk.tree[p]) == text
        && (|Body(s2, c)| == n <==> n == 0 || |text| >= offset + n)
        && (Undisturbed(s1, events, p) ==> |Body(s2, c)| == n && Body(s2, c) == was[offset..])
  {
    hide Inv, Step, Run, TextAfter, Undisturbed, Ready;
    var p := Cwd(s, c) + [name];
    var s1 := Step(s, DoDl(c, name, offset));
    var s2 := Run(s1, events);
    DlGrants(s, c, name, offset);
    RunInv(s1, events);
    HeldLock(s2, c, s.next);
    SameLockAtEnd(s1, events, c, s.next);
    HeldThroughout(s1, events, c, s.next, p);
    var was := TextOf(s.disk.tree[p]);
    var text := TextAfter(s1, events, p, was);
    PartLength(text, offset, |was|);
    if Undisturbed(s1, events, p) { UndisturbedText(s1, events, p, was); }
  }

  lemma RunInv(s: State, events: seq<Event>)
    requires Inv(s)
    ensures Inv(Run(s, events))
  {
    RunKeeps(s, events);
  }

  lemma HeldLock(s: State, c: ClientId, id: TokenId)
    requires Inv(s) && HoldsToken(s, c, id)
    ensures id in s.locks && s.locks[id].role == Requested
  {
    assert HeldOk(s, c, Requested);
  }

  lemma {:induction false} SameLockAtEnd(s: State, events: seq<Event>, c: ClientId, id: TokenId)
    requires Inv(s) && id < s.next && HoldsToken(Run(s, events), c, id) && id in Run(s, events).locks
    ensures HoldsToken(s, c, id) && id in s.locks && s.locks[id] == Run(s, events).locks[id]
    decreases |events|
  {
    hide Inv, Step;
    if events == [] {
    } else {
      StepKeeps(s, events[0]);
      NextGrows(s, events[0]);
      SameLockAtEnd(Step(s, events[0]), events[1..], c, id);
      HeldBefore(s, events[0], c, id);
    }
  }

  // ---------- down to the connection ----------

  /** The download manager's transfer for a file that is long enough. */
  function TransferOf(s: State, c: ClientId): Connection.Transfer
    requires c in s.clients && Requested in s.clients[c].held && s.clients[c].held[Requested] in s.locks
    requires var lock := s.locks[s.clients[c].held[Requested]];
      lock.payload.Fetch? && lock.path in s.disk.tree && lock.payload.size <= |TextOf(s.disk.tree[lock.path])|
  {
    var lock := s.locks[s.clients[c].held[Requested]];
    Connection.Transfer(TextOf(s.disk.tree[lock.path])[..lock.payload.size], lock.payload.offset)
  }

  /** From `dl` to the last byte: if nobody overwrites the file before the `dls`, then over
      every sequence of partial transfers the client is sent exactly the part of the file
      that was announced, and is back in command mode exactly when all of it has gone. */
  lemma DeliveredAsAnnounced(s: State, c: ClientId, name: string, offset: nat, events: seq<Event>,
                             server: Connection.Server, conn: Connection.Conn, evs: seq<Client.Readiness>)
    requires Inv(s) && Ready(s, c) && Component(name) && Announced(s, c, name, offset).Some?
    requires var s1 := Step(s, DoDl(c, name, offset));
      HoldsToken(Run(s1, events), c, s.next) && Undisturbed(s1, events, Cwd(s, c) + [name])
    requires 0 < Announced(s, c, name, offset).value < 0xFFFF_FFFF
    ensures var p, n := Cwd(s, c) + [name], Announced(s, c, name, offset).value;
      var s2 := Run(Step(s, DoDl(c, name, offset)), events);
      && p in s.disk.tree && p in s2.disk.tree && s.next in s2.locks && s2.locks[s.next].path == p
      && s2.locks[s.next].payload.Fetch? && s2.locks[s.next].payload.size <= |TextOf(s2.disk.tree[p])|
      && (Client.Sending(conn) && conn.pending == "" && Client.Flows(evs) && conn.transfer == Some(TransferOf(s2, c)) ==>
            var conn' := Client.HandleAll(server, conn, evs);
            && conn'.alive && (conn'.mode == Command <==> Client.Moved(evs) >= n)
            && (conn'.mode == Command ==> conn'.written == conn.written + TextOf(s.disk.tree[p])[offset..]))
  {
    hide Inv, Step, Run, TextAfter, Undisturbed, Ready, Client.HandleAll;
    AnnouncedIsSent(s, c, name, offset, events);
    var p := Cwd(s, c) + [name];
    var s2 := Run(Step(s, DoDl(c, name, offset)), events);
    assert TextOf(s2.disk.tree[p]) == TextOf(s.disk.tree[p]) by {
      UndisturbedText(Step(s, DoDl(c, name, offset)), events, p, TextOf(s.disk.tree[p]));
    }
    var text := TextOf(s.disk.tree[p]);
    assert text[..|text|] == text;
    if Client.Sending(conn) && conn.pending == "" && Client.Flows(evs) && conn.transfer == Some(TransferOf(s2, c)) {
      Client.DownloadExact(server, conn, evs);
    }
  }

  /** A client that is sending a file: what the invariant says of its token. */
  ghost predicate Fetches(s: State, c: ClientId) {
    && c in s.clients && s.clients[c].mode == Download
    && Sending in s.clients[c].held && s.clients[c].held[Sending] in s.locks
    && var payload := s.locks[s.clients[c].held[Sending]].payload; payload.Fetch? && payload.offset <= payload.size
  }

  lemma SenderFetches(s: State, c: ClientId)
    requires Inv(s) && c in s.clients && Sending in s.clients[c].held
    ensures Fetches(s, c)
  {
    assert CtxOk(s, c);
    SendingPlaced(s, c);
  }

  /** The lock on a file that is being sent is released, and its client back in command
      mode, exactly with the last byte; the client survives a transfer exactly when
      something was left, something was moved, and the number of bytes asked for does not
      make -1 of an `int`. */
  lemma LockedTillLastByte(s: State, c: ClientId, count: nat)
    requires Fetches(s, c)
    ensures var s', id := Step(s, DoSent(c, count)), s.clients[c].held[Sending];
      var Fetch(size, offset) := s.locks[id].payload;
      var survives := offset < size && count > 0 && (size - offset) % 0x1_0000_0000 != 0xFFFF_FFFF;
      && c in s'.clients && s'.clients[c].alive == (s.clients[c].alive && survives)
      && (s'.clients[c].mode == Command <==> survives && count >= size - offset)
      && (id in s'.locks <==> s'.clients[c].mode == Download)
      && (id in s'.locks && count < size - offset ==> s'.locks[id].payload == Fetch(size, offset + count))
  {
    hide Step, Transferred;
    SentIsStep(s, c, count);
    var Fetch(size, offset) := s.locks[s.clients[c].held[Sending]].payload;
    if offset == size || count == 0 || (size - offset) % 0x1_0000_0000 == 0xFFFF_FFFF {
      SentDies(s, c, count);
    } else {
      SentMoves(s, c, count);
    }
  }

  lemma SentIsStep(s: State, c: ClientId, count: nat)
    requires c in s.clients && s.clients[c].mode == Download
    ensures Step(s, DoSent(c, count)) == Transferred(s, c, count)
  {
    hide Transferred;
  }

  lemma SentDies(s: State, c: ClientId, count: nat)
    requires Fetches(s, c)
    requires var Fetch(size, offset) := s.locks[s.clients[c].held[Sending]].payload;
      offset == size || count == 0 || (size - offset) % 0x1_0000_0000 == 0xFFFF_FFFF
    ensures var s', id := Transferred(s, c, count), s.clients[c].held[Sending];
      && c in s'.clients && !s'.clients[c].alive && s'.clients[c].mode == Download && id in s'.locks
      && var Fetch(size, offset) := s.locks[id].payload;
        count < size - offset ==> s'.locks[id].payload == Fetch(size, offset + count)
  {
  }

  lemma SentMoves(s: State, c: ClientId, count: nat)
    requires Fetches(s, c)
    requires var Fetch(size, offset) := s.locks[s.clients[c].held[Sending]].payload;
      offset < size && count > 0 && (size - offset) % 0x1_0000_0000 != 0xFFFF_FFFF
    ensures var s', id := Transferred(s, c, count), s.clients[c].held[Sending];
      var Fetch(size, offset) := s.locks[id].payload;
      && c in s'.clients && s'.clients[c].alive == s.clients[c].alive
      && (s'.clients[c].mode == Command <==> count >= size - offset) && s'.clients[c].mode != Upload
      && (id in s'.locks <==> count < size - offset)
      && (id in s'.locks ==> s'.locks[id].payload == Fetch(size, offset + count))
  {
  }
}
