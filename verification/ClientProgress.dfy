/** What a connection asks for and that it gets on: the other half of the safety of
    `Client`. */
module ClientProgress {
  import opened Options
  import opened Text
  import opened ProtocolMode
  import opened Connection
  import opened Client
  import I = Interpreter
  import Requests

  // ---------- waiting for input ----------

  ghost predicate Speaks(a: Action) {
    match a
    case Reply(text, _) => text != ""
    case StartUpload(text, _, _) => text != ""
    case Fatal(Some(text)) => text != ""
    case _ => true
  }

  /** A server whose replies are not empty: every response has a header. */
  ghost predicate Talkative(server: Server) {
    && (forall log, request :: Speaks(server.execute(log, request)))
    && (forall e :: server.refusal(e) != "")
  }

  /** Nothing empty is queued, and input is parked only during a download. */
  ghost predicate Tidy(c: Conn) {
    (forall r <- c.queue :: r.offset < |r.data|) && (c.pending != "" ==> c.mode == Download)
  }

  lemma ExecuteTidy(server: Server, c: Conn, request: I.Request)
    requires Talkative(server) && Tidy(c) && c.mode == Command
    ensures Tidy(Execute(server, c, request).conn)
  {
    assert Speaks(server.execute(c.log, request));
    hide Talkative;
  }

  lemma OutcomeTidy(server: Server, c: Conn, outcome: I.Outcome)
    requires Talkative(server) && Tidy(c) && c.mode == Command
    ensures Tidy(HandleOutcome(server, c, outcome).conn)
  {
    if outcome.Done? && outcome.state.request.Some? {
      ExecuteTidy(server, c.(interp := I.INIT), outcome.state.request.value);
    }
    hide Execute;
  }

  lemma RoundTidy(server: Server, c: Conn, input: string)
    requires Valid(c) && Talkative(server) && Tidy(c)
    ensures Tidy(Round(server, c, input).conn)
  {
    hide Talkative, I.Valid, I.Commit, HandleOutcome, StoredBytes;
    if c.mode == Command { OutcomeTidy(server, c, I.Commit(c.interp, input)); }
  }

  lemma {:induction false} BatchTidy(server: Server, c: Conn, input: string)
    requires Valid(c) && Talkative(server) && Tidy(c) && input != ""
    ensures Tidy(Batch(server, c, input).conn)
    decreases |input|, c.mode == Upload
  {
    hide Talkative, Tidy, Round;
    RoundProgress(server, c, input);
    RoundTidy(server, c, input);
    var r := Round(server, c, input);
    if !r.thrown && r.rest != "" { BatchTidy(server, r.conn, r.rest); }
  }

  lemma InputTidy(server: Server, c: Conn, input: string)
    requires Valid(c) && Talkative(server) && Tidy(c)
    ensures Tidy(HandleInput(server, c, input).conn)
  {
    hide Talkative, Tidy, Round, Batch;
    if input == "" { RoundTidy(server, c, ""); } else { BatchTidy(server, c, input); }
  }

  /** What was parked is gone after the next event. */
  lemma PendingGoes(server: Server, c: Conn, ev: Readiness)
    requires Valid(c) && Talkative(server) && Tidy(c)
    ensures Tidy(ReadPart(server, c, ev).conn)
  {
    hide Talkative, Batch;
    if c.pending != "" {
      InputTidy(server, c, c.pending);
    } else if ev.readable && ev.received.Some? {
      InputTidy(server, c, ev.received.value);
    }
  }

  lemma WriteOneTidy(queue: seq<Response>, accepted: nat)
    requires ValidQueue(queue) && queue != [] && forall r <- queue :: r.offset < |r.data|
    ensures forall r <- WriteOne(queue, accepted).queue :: r.offset < |r.data|
  {
    hide Unsent;
    assert forall r <- queue[1..] :: r in queue;
  }

  lemma {:induction false} WriteTidy(queue: seq<Response>, accepts: seq<int>)
    requires ValidQueue(queue) && forall r <- queue :: r.offset < |r.data|
    ensures forall r <- Write(queue, accepts).queue :: r.offset < |r.data|
    decreases |accepts|
  {
    hide Unsent, WriteOne;
    if accepts != [] && Takes(queue, accepts[0]) {
      WriteOneTidy(queue, accepts[0]);
      WriteTidy(WriteOne(queue, accepts[0]).queue, accepts[1..]);
    }
  }

  lemma HandleTidy(server: Server, c: Conn, ev: Readiness)
    requires Valid(c) && Talkative(server) && Tidy(c) && Asked(c, ev)
    ensures Tidy(Handle(server, c, ev))
  {
    ReadOrWrite(server, c, ev);
    hide Talkative, ReadPart, Write, SendBody;
    PendingGoes(server, c, ev);
    WriteTidy(ReadPart(server, c, ev).conn.queue, ev.accepts);
  }

  /** An event that was asked for is for reading or for writing, and what was parked does not
      outlive it. */
  lemma ReadOrWrite(server: Server, c: Conn, ev: Readiness)
    requires Valid(c) && Tidy(c) && Asked(c, ev)
    ensures ev.writable ==> ReadPart(server, c, ev).conn.pending == ""
  {
    if c.pending != "" && ev.writable {
      assert Round(server, c, c.pending) == Turn(c, "", false);
    }
  }

  /** All events of a run were asked for. */
  ghost predicate AskedRun(server: Server, c: Conn, evs: seq<Readiness>)
    requires Valid(c)
    decreases |evs|
  {
    evs != [] && c.alive ==> Asked(c, evs[0]) && AskedRun(server, Handle(server, c, evs[0]), evs[1..])
  }

  lemma {:induction false} RunTidy(server: Server, c: Conn, evs: seq<Readiness>)
    requires Valid(c) && Talkative(server) && Tidy(c) && AskedRun(server, c, evs)
    ensures Tidy(HandleAll(server, c, evs))
    decreases |evs|
  {
    hide Talkative, Tidy, Handle, Asked;
    if evs != [] && c.alive {
      HandleTidy(server, c, evs[0]);
      RunTidy(server, Handle(server, c, evs[0]), evs[1..]);
    }
  }

  lemma NothingUnsent(queue: seq<Response>)
    requires ValidQueue(queue) && forall r <- queue :: r.offset < |r.data|
    ensures queue != [] ==> Unsent(queue) != ""
  {
    if queue != [] {
      assert queue[0] in queue && queue[0].Remaining() != "";
    }
  }

  /** In every run of events that were asked for, input is asked for if and only if
      everything owed has been written and no file is being sent. */
  lemma InputAskedExactly(server: Server, evs: seq<Readiness>)
    requires Talkative(server) && AskedRun(server, START, evs)
    ensures var c := HandleAll(server, START, evs);
      RequiredEvents(c) == In <==> c.written == Owed(c.log) && c.mode != Download
  {
    AllAnswered(server, evs);
    OutputConserved(server, START, evs);
    RunTidy(server, START, evs);
    hide Talkative, AskedRun, HandleAll, Owed;
    var c := HandleAll(server, START, evs);
    if c.written == Owed(c.log) && c.mode != Download {
      assert c.written + Unsent(c.queue) + "" == c.written + Unsent(c.queue);
      assert |c.written + Unsent(c.queue)| == |c.written| + |Unsent(c.queue)|;
      NothingUnsent(c.queue);
    }
  }

  // ---------- uploads get their bytes ----------

  function Arrives(bytes: string): Readiness { Readiness(true, false, Some(bytes), [], false, 0) }

  function Arrivals(chunks: seq<string>): seq<Readiness> {
    if chunks == [] then [] else [Arrives(chunks[0])] + Arrivals(chunks[1..])
  }

  /** A connection that waits for the bytes of an upload. */
  ghost predicate Awaiting(c: Conn, n: nat) {
    Valid(c) && c.alive && c.mode == Upload && c.queue == [] && c.pending == "" && c.uploadLeft == Some(n) && n > 0
  }

  lemma AwaitingAsks(c: Conn, n: nat, bytes: string)
    requires Awaiting(c, n)
    ensures Asked(c, Arrives(bytes)) && Reads(c, Arrives(bytes))
  {
  }

  /** Upload bytes, up to the last one missing, are a clean batch. */
  lemma {:induction false} UploadBytesClean(server: Server, i: Input, bytes: string)
    requires ValidInput(i) && i.left.Some? && |bytes| <= i.left.value
    ensures Clean(server, i, bytes)
    decreases |bytes|
  {
    hide I.Valid;
    if bytes != "" {
      var j := Step(server, i, bytes[0]);
      ByteTaken(server, i, bytes[0]);
      if i.left.value > 1 {
        UploadBytesClean(server, j, bytes[1..]);
      } else {
        assert bytes[1..] == "";
      }
    }
  }

  lemma ByteTaken(server: Server, i: Input, b: char)
    requires ValidInput(i) && i.left.Some? && i.left.value > 0
    ensures var j := Step(server, i, b);
      && !LimitHit(i, j)
      && (i.left.value > 1 ==> !Stops(i, j) && j == i.(left := Some(i.left.value - 1), log := i.log + [Stored(b)]))
  {
  }

  lemma ChunkTaken(server: Server, c: Conn, n: nat, bytes: string)
    requires Awaiting(c, n) && 0 < |bytes| <= n
    ensures Clean(server, InputOf(c), bytes)
    ensures var c', log := Handle(server, c, Arrives(bytes)), c.log + StoredBytes(bytes);
      if |bytes| < n then Awaiting(c', n - |bytes|) && c'.log == log
      else if server.places(log) then c' == c.(log := log + [Finished], mode := Command, uploadLeft := None)
      else !c'.alive
  {
    UploadBytesClean(server, InputOf(c), bytes);
    ChunkHandled(server, c, n, bytes);
    hide Clean;
  }

  lemma ChunkHandled(server: Server, c: Conn, n: nat, bytes: string)
    requires Awaiting(c, n) && 0 < |bytes| <= n
    ensures var c', log := Handle(server, c, Arrives(bytes)), c.log + StoredBytes(bytes);
      if |bytes| < n then Awaiting(c', n - |bytes|) && c'.log == log
      else if server.places(log) then c' == c.(log := log + [Finished], mode := Command, uploadLeft := None)
      else !c'.alive
  {
    hide StoredBytes, I.Valid;
    assert bytes[..|bytes|] == bytes && bytes[|bytes|..] == "";
    var r := Round(server, c, bytes);
    RoundProgress(server, c, bytes);
    assert Batch(server, c, bytes) == r;
  }

  ghost predicate Proper(chunks: seq<string>) { forall chunk <- chunks :: chunk != "" }

  /** However the missing bytes of an upload are cut, they are asked for, read and stored,
      and the upload ends with the last one if its file can be put in place. */
  lemma {:induction false} UploadGetsOn(server: Server, c: Conn, n: nat, chunks: seq<string>)
    requires Awaiting(c, n) && Proper(chunks) && |Concat(chunks)| == n
    ensures var text, evs := Concat(chunks), Arrivals(chunks);
      && CleanRun(server, c, evs) && Stream(server, c, evs) == text
      && (server.places(c.log + StoredBytes(text)) ==>
            HandleAll(server, c, evs) ==
              c.(log := c.log + StoredBytes(text) + [Finished], mode := Command, uploadLeft := None))
    decreases |chunks|
  {
    assert chunks != [];
    var a, more := chunks[0], chunks[1..];
    assert a in chunks && forall chunk <- more :: chunk in chunks;
    assert Arrivals(chunks)[0] == Arrives(a) && Arrivals(chunks)[1..] == Arrivals(more);
    AwaitingAsks(c, n, a);
    ChunkTaken(server, c, n, a);
    var c' := Handle(server, c, Arrives(a));
    if |a| < n {
      UploadGetsOn(server, c', n - |a|, more);
      StoredJoin(c.log, a, Concat(more));
    } else {
      assert Concat(more) == "" && a + "" == a;
      NoMore(more);
    }
  }

  lemma NoMore(chunks: seq<string>)
    requires Proper(chunks)
    ensures chunks != [] ==> Concat(chunks) != ""
  {
    if chunks != [] { assert chunks[0] in chunks; }
  }

  lemma StoredJoin(log: seq<Event>, a: string, b: string)
    ensures log + StoredBytes(a) + StoredBytes(b) == log + StoredBytes(a + b)
  {
    assert StoredBytes(a) + StoredBytes(b) == StoredBytes(a + b);
  }

  // ---------- replies and files go out ----------

  /** The socket takes every queued reply whole. */
  ghost predicate TakesAll(queue: seq<Response>, accepts: seq<int>)
    requires ValidQueue(queue)
  {
    |queue| <= |accepts| && forall i | 0 <= i < |queue| :: 0 < |queue[i].Remaining()| <= accepts[i]
  }

  lemma {:induction false} AllWritten(queue: seq<Response>, accepts: seq<int>)
    requires ValidQueue(queue) && TakesAll(queue, accepts)
    ensures Write(queue, accepts) == WriteResult([], Unsent(queue))
    decreases |queue|
  {
    if queue != [] {
      var one := WriteOne(queue, accepts[0]);
      FrontWritten(queue, accepts[0]);
      hide WriteOne;
      AllWritten(queue[1..], accepts[1..]);
    }
  }

  lemma FrontWritten(queue: seq<Response>, accepted: int)
    requires ValidQueue(queue) && queue != [] && 0 < |queue[0].Remaining()| <= accepted
    ensures WriteOne(queue, accepted) == WriteResult(queue[1..], queue[0].Remaining())
  {
    hide Unsent;
    var left := queue[0].Remaining();
    assert left[..|left|] == left;
  }

  /** An event that lets a connection write: what is queued goes, and nothing else happens. */
  lemma RepliesGo(server: Server, c: Conn, ev: Readiness)
    requires Valid(c) && c.queue != [] && c.pending == "" && !ev.readable && ev.writable && TakesAll(c.queue, ev.accepts)
    ensures Handle(server, c, ev) ==
      c.(queue := [], written := c.written + Unsent(c.queue), alive := c.alive && !ev.broken)
  {
    AllWritten(c.queue, ev.accepts);
    hide Write, Unsent;
  }

  /** Some of the first reply goes as soon as the socket takes anything. */
  lemma SomethingGoes(server: Server, c: Conn, ev: Readiness)
    requires Valid(c) && c.queue != [] && c.queue[0].Remaining() != "" && c.pending == "" && !ev.readable && ev.writable
    requires ev.accepts != [] && ev.accepts[0] > 0
    ensures |Handle(server, c, ev).written| > |c.written|
  {
    FirstGoes(c.queue, ev.accepts);
    hide Write;
  }

  lemma FirstGoes(queue: seq<Response>, accepts: seq<int>)
    requires ValidQueue(queue) && accepts != [] && Takes(queue, accepts[0])
    ensures Write(queue, accepts).sent != ""
  {
    assert WriteOne(queue, accepts[0]).sent != "";
    hide WriteOne, Unsent;
  }

  /** The file of an empty download is over with the first chance to write. */
  lemma EmptyFileGoes(server: Server, c: Conn, ev: Readiness)
    requires Valid(c) && c.mode == Download && c.transfer.None? && c.queue == [] && c.pending == ""
    requires !ev.readable && ev.writable
    ensures Handle(server, c, ev) == c.(mode := Command)
  {
  }

  // ---------- what kills ----------

  /** A failure to read kills, whatever else. */
  lemma ReadFailureKills(server: Server, c: Conn, ev: Readiness)
    requires Valid(c) && c.pending == "" && ev.readable && ev.received.None?
    ensures Handle(server, c, ev) == c.(alive := false)
  {
  }

  /** A failure to write kills, and losing nothing but the connection. */
  lemma WriteFailureKills(server: Server, c: Conn, ev: Readiness)
    requires Valid(c) && c.queue != [] && c.pending == "" && !ev.readable && ev.writable
    ensures Handle(server, c, ev).alive == (c.alive && !ev.broken)
  {
    hide Write;
  }

  /** An event that brings nothing changes nothing. */
  lemma IdleEvent(server: Server, c: Conn, ev: Readiness)
    requires Valid(c) && c.pending == "" && !ev.readable && !ev.writable
    ensures Handle(server, c, ev) == c
  {
  }

  // ---------- requests are served ----------

  /** A connection that waits for a request. */
  ghost predicate Waiting(c: Conn) {
    Valid(c) && c.alive && c.mode == Command && c.interp == I.INIT && c.queue == [] && c.pending == ""
  }

  /** A request the console client can print and the server can read. */
  ghost predicate Printable(command: string, fields: seq<I.Fields.Field>) {
    command != "" && LF !in command && |command| <= 6 && Requests.ProperFields(fields) && |fields| <= 14
  }

  /** A request that is printed by the client and arrives in one read is executed, with
      exactly its command and fields, by a connection that waits for one. */
  lemma RequestIsExecuted(server: Server, c: Conn, command: string, fields: seq<I.Fields.Field>)
    requires Waiting(c) && Printable(command, fields)
    ensures var text, request := Requests.RequestText(command, Requests.Pairs(fields)), I.Request(command, fields);
      && Asked(c, Arrives(text))
      && Handle(server, c, Arrives(text)).log == c.log + [Executed(request, server.execute(c.log, request))]
      && Handle(server, c, Arrives(text)).interp == I.INIT
  {
    var text, request := Requests.RequestText(command, Requests.Pairs(fields)), I.Request(command, fields);
    hide Requests.RequestText, Requests.ProperFields, Requests.Pairs, Execute, Handle, Asked;
    PrintedIsTaken(command, fields);
    TakenWhole(server, c, text, request);
    ExecutedLog(server, c, request);
  }

  /** A batch that is one request, and nothing else. */
  lemma TakenWhole(server: Server, c: Conn, text: string, request: I.Request)
    requires Waiting(c)
    requires text != "" && I.Commit(c.interp, text) == I.Done(I.State([], true, Some(request)), "")
    ensures Asked(c, Arrives(text)) && Handle(server, c, Arrives(text)) ==
      var r := Execute(server, c, request); if r.thrown then r.conn.(alive := false) else r.conn
  {
    hide I.Valid, I.Commit;
    assert c.(interp := I.INIT) == c;
    ExecutedLog(server, c, request);
    hide Execute;
    RoundProgress(server, c, text);
    assert Batch(server, c, text) == Execute(server, c, request);
  }

  lemma ExecutedLog(server: Server, c: Conn, request: I.Request)
    ensures var r := Execute(server, c, request);
      r.conn.log == c.log + [Executed(request, server.execute(c.log, request))] && r.conn.interp == c.interp && r.rest == ""
  {
  }

  lemma PrintedIsTaken(command: string, fields: seq<I.Fields.Field>)
    requires Printable(command, fields)
    ensures var text := Requests.RequestText(command, Requests.Pairs(fields));
      text != "" && I.Valid(I.INIT) && I.Commit(I.INIT, text) == I.Done(I.State([], true, Some(I.Request(command, fields))), "")
  {
    var text := Requests.RequestText(command, Requests.Pairs(fields));
    hide I.Commit, I.Feed, Requests.RequestText, Requests.ProperFields, Requests.Pairs;
    assert [text][1..] == [] && text + "" == text;
    Requests.RequestRoundTrip(command, fields, [text]);
    I.NothingRead();
    I.CommitKeepsValid(I.INIT, text);
    OneChunk(text);
    NothingCommitted();
  }

  lemma OneChunk(text: string)
    requires I.Valid(I.INIT)
    ensures var r := I.Commit(I.INIT, text);
      I.CommitChunks(I.INIT, [text]).Done? && I.CommitChunks(I.INIT, [text]).state.request.Some? ==>
        r.Done? && I.CommitChunks(I.INIT, [text]) == I.Done(r.state, r.rest + "")
  {
    hide I.Commit;
    assert [text][1..] == [] && Concat([]) == "";
  }

  lemma NothingCommitted()
    requires I.Valid(I.INIT)
    ensures I.Commit(I.INIT, "") == I.Done(I.INIT, "")
  {
  }

  // ---------- sessions ----------

  /** The socket takes this many bytes. */
  function Drains(count: nat): Readiness { Readiness(false, true, None, [count], false, 0) }

  /** The request arrives, and its reply goes. */
  function Exchange(command: string, fields: seq<I.Fields.Field>, text: string): seq<Readiness> {
    [Arrives(Requests.RequestText(command, Requests.Pairs(fields))), Drains(|text|)]
  }

  lemma ReplyGoes(server: Server, c: Conn, text: string)
    requires Valid(c) && c.queue == [Response(text, 0)] && text != "" && c.pending == ""
    ensures Asked(c, Drains(|text|))
    ensures Handle(server, c, Drains(|text|)) == c.(queue := [], written := c.written + text)
  {
    assert c.queue[0].Remaining() == text && c.queue[1..] == [] && text + "" == text;
    RepliesGo(server, c, Drains(|text|));
  }

  lemma TwoEvents(server: Server, c: Conn, a: Readiness, b: Readiness, evs: seq<Readiness>)
    requires Valid(c) && c.alive && Handle(server, c, a).alive
    requires Asked(c, a) && Asked(Handle(server, c, a), b)
    ensures var c' := Handle(server, Handle(server, c, a), b);
      && HandleAll(server, c, [a, b] + evs) == HandleAll(server, c', evs)
      && (AskedRun(server, c, [a, b] + evs) <==> AskedRun(server, c', evs))
  {
    hide Handle, Asked;
    var all := [a, b] + evs;
    assert all[1..][1..] == evs && all[1..][0] == b;
  }

  /** A request and its reply: the connection has executed exactly this request, written
      exactly this reply, and waits again. */
  lemma ReplySession(server: Server, c: Conn, command: string, fields: seq<I.Fields.Field>, text: string)
    requires Waiting(c) && Printable(command, fields) && text != ""
    requires server.execute(c.log, I.Request(command, fields)) == Reply(text, false)
    ensures var evs, e := Exchange(command, fields, text), Executed(I.Request(command, fields), Reply(text, false));
      AskedRun(server, c, evs) && HandleAll(server, c, evs) == c.(log := c.log + [e], written := c.written + text)
  {
    Exchanged(server, c, command, fields, text, []);
    assert Exchange(command, fields, text) + [] == Exchange(command, fields, text);
  }

  lemma Exchanged(server: Server, c: Conn, command: string, fields: seq<I.Fields.Field>, text: string, evs: seq<Readiness>)
    requires Waiting(c) && Printable(command, fields) && text != ""
    requires var a := server.execute(c.log, I.Request(command, fields));
      a == Reply(text, false) || (a.StartUpload? && a.text == text)
    ensures var a := server.execute(c.log, I.Request(command, fields));
      var c' := c.(log := c.log + [Executed(I.Request(command, fields), a)], written := c.written + text,
                   mode := if a.StartUpload? then Upload else Command,
                   uploadLeft := if a.StartUpload? then Some(a.size - a.offset) else None);
      && Valid(c') && HandleAll(server, c, Exchange(command, fields, text) + evs) == HandleAll(server, c', evs)
      && (AskedRun(server, c, Exchange(command, fields, text) + evs) <==> AskedRun(server, c', evs))
  {
    hide Requests.RequestText, Requests.ProperFields, Requests.Pairs, Handle, Asked, I.Valid, I.Commit, HandleAll, AskedRun;
    var bytes, request := Requests.RequestText(command, Requests.Pairs(fields)), I.Request(command, fields);
    PrintedIsTaken(command, fields);
    TakenWhole(server, c, bytes, request);
    var c1 := Handle(server, c, Arrives(bytes));
    assert c1.queue == [Response(text, 0)];
    ReplyGoes(server, c1, text);
    TwoEvents(server, c, Arrives(bytes), Drains(|text|), evs);
  }

  /** `exit`: the connection is dead when its request has been handled. */
  lemma ExitSession(server: Server, c: Conn, command: string, fields: seq<I.Fields.Field>, text: string)
    requires Waiting(c) && Printable(command, fields)
    requires server.execute(c.log, I.Request(command, fields)) == Reply(text, true)
    ensures var bytes := Requests.RequestText(command, Requests.Pairs(fields)); !Handle(server, c, Arrives(bytes)).alive
  {
    hide Requests.RequestText, Requests.ProperFields, Requests.Pairs, Handle, I.Valid, I.Commit;
    PrintedIsTaken(command, fields);
    TakenWhole(server, c, Requests.RequestText(command, Requests.Pairs(fields)), I.Request(command, fields));
  }

  /** A whole download on the wire: the request, and then the file from the offset, over
      every sequence of transfers that is long enough. Exactly that part is written, and the
      connection waits for the next request. */
  lemma DownloadSession(server: Server, c: Conn, command: string, fields: seq<I.Fields.Field>,
                        content: string, offset: nat, evs: seq<Readiness>)
    requires Waiting(c) && Printable(command, fields) && offset <= |content| && 0 < |content| - offset < 0xFFFF_FFFF
    requires server.execute(c.log, I.Request(command, fields)) == StartDownload(content, offset)
    requires Flows(evs) && Moved(evs) >= |content| - offset
    ensures var bytes := Requests.RequestText(command, Requests.Pairs(fields));
      HandleAll(server, c, [Arrives(bytes)] + evs) ==
        c.(log := c.log + [Executed(I.Request(command, fields), StartDownload(content, offset))],
           written := c.written + content[offset..])
  {
    hide Requests.RequestText, Requests.ProperFields, Requests.Pairs, Handle, I.Valid, I.Commit;
    var bytes := Requests.RequestText(command, Requests.Pairs(fields));
    PrintedIsTaken(command, fields);
    TakenWhole(server, c, bytes, I.Request(command, fields));
    var c1 := Handle(server, c, Arrives(bytes));
    assert ([Arrives(bytes)] + evs)[1..] == evs;
    DownloadExact(server, c1, evs);
  }

  /** A download of which nothing is left to send: that of an empty file is over with the next
      event for writing, that of another file kills the client. */
  lemma NothingLeftSession(server: Server, c: Conn, command: string, fields: seq<I.Fields.Field>, content: string, count: nat)
    requires Waiting(c) && Printable(command, fields)
    requires server.execute(c.log, I.Request(command, fields)) == StartDownload(content, |content|)
    ensures var bytes := Requests.RequestText(command, Requests.Pairs(fields));
      var c' := Handle(server, Handle(server, c, Arrives(bytes)), Push(count));
      c'.written == c.written && (c'.alive <==> content == "") && (c'.mode == Command <==> content == "")
  {
    hide Requests.RequestText, Requests.ProperFields, Requests.Pairs, I.Valid, I.Commit;
    var bytes := Requests.RequestText(command, Requests.Pairs(fields));
    PrintedIsTaken(command, fields);
    hide Handle;
    TakenWhole(server, c, bytes, I.Request(command, fields));
    NothingLeft(server, Handle(server, c, Arrives(bytes)), count);
  }

  lemma NothingLeft(server: Server, c: Conn, count: nat)
    requires Valid(c) && c.alive && c.mode == Download && c.queue == [] && c.pending == ""
    requires c.transfer.Some? ==> c.transfer.value.Rest() == ""
    ensures var c' := Handle(server, c, Push(count));
      c'.written == c.written && c'.alive == c.transfer.None? && (c'.mode == Command <==> c.transfer.None?)
  {
  }

  /** A whole upload on the wire: the request, its reply, and then exactly the bytes from the
      offset to the size, however they are cut. They are asked for and stored, the file is put
      in place, and the connection waits for the next request. */
  lemma UploadSession(server: Server, c: Conn, command: string, fields: seq<I.Fields.Field>, text: string,
                      size: nat, offset: nat, chunks: seq<string>)
    requires Waiting(c) && Printable(command, fields) && text != "" && offset < size
    requires server.execute(c.log, I.Request(command, fields)) == StartUpload(text, size, offset)
    requires Proper(chunks) && |Concat(chunks)| == size - offset
    requires server.places(c.log + [Executed(I.Request(command, fields), StartUpload(text, size, offset))] + StoredBytes(Concat(chunks)))
    ensures var evs, e := Exchange(command, fields, text) + Arrivals(chunks), Executed(I.Request(command, fields), StartUpload(text, size, offset));
      && AskedRun(server, c, evs)
      && HandleAll(server, c, evs) == c.(log := c.log + [e] + StoredBytes(Concat(chunks)) + [Finished], written := c.written + text)
  {
    hide Requests.ProperFields, Exchange, HandleAll, AskedRun, CleanRun, Handle, Stream, StoredBytes, Concat, I.Valid;
    var evs := Arrivals(chunks);
    Exchanged(server, c, command, fields, text, evs);
    var c' := c.(log := c.log + [Executed(I.Request(command, fields), StartUpload(text, size, offset))],
                 written := c.written + text, mode := Upload, uploadLeft := Some(size - offset));
    UploadGetsOn(server, c', size - offset, chunks);
    CleanIsAsked(server, c', evs);
  }

  lemma {:induction false} CleanIsAsked(server: Server, c: Conn, evs: seq<Readiness>)
    requires Valid(c) && CleanRun(server, c, evs)
    ensures AskedRun(server, c, evs)
    decreases |evs|
  {
    hide Handle, Asked, Clean, Reads;
    if evs != [] && c.alive { CleanIsAsked(server, Handle(server, c, evs[0]), evs[1..]); }
  }
}
