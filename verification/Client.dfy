/** Whole runs of one connection: `Client::handle` (server/src/server/client.cpp), event
    after event. */
module Client {
  import opened Options
  import opened Text
  import opened ProtocolMode
  import opened Widths
  import opened Connection
  import I = Interpreter

  // ---------- one readiness event ----------

  /** What a readiness event brings: the bytes read (none when reading fails), what the
      socket takes of each write, whether writing then fails, and how much of a file body
      a transfer moves. */
  datatype Readiness = Readiness(readable: bool, writable: bool, received: Option<string>,
                         accepts: seq<int>, broken: bool, moved: nat)

  function HandleInput(server: Server, c: Conn, input: string): (r: Turn)
    requires Valid(c)
    ensures Valid(r.conn) && (!r.thrown ==> r.rest == "")
  {
    if input == "" then Round(server, c, "") else Batch(server, c, input)
  }

  function ReadPart(server: Server, c: Conn, ev: Readiness): (r: Turn)
    requires Valid(c)
    ensures Valid(r.conn)
  {
    if c.pending != "" then
      var r := HandleInput(server, c, c.pending);
      if r.thrown then r else r.(conn := r.conn.(pending := r.rest))
    else if ev.readable then
      match ev.received
      case None => Turn(c, "", true)
      case Some(batch) => HandleInput(server, c, batch)
    else Turn(c, "", false)
  }

  /** handle_output: queued replies first, a file body only when there are none. */
  function WritePart(c: Conn, ev: Readiness): (r: Turn)
    requires Valid(c)
    ensures Valid(r.conn)
  {
    if c.queue != [] then
      var w := Write(c.queue, ev.accepts);
      Turn(c.(queue := w.queue, written := c.written + w.sent), "", ev.broken)
    else if c.mode == Download then
      match c.transfer
      case None => Turn(c.(mode := Command), "", false)
      case Some(t) =>
        var s := SendBody(t, ev.moved);
        Turn(c.(transfer := s.transfer, written := c.written + s.bytes,
                mode := if s.transfer.None? then Command else Download), "", s.thrown)
    else Turn(c, "", false)
  }

  function Handle(server: Server, c: Conn, ev: Readiness): (c': Conn)
    requires Valid(c)
    ensures Valid(c')
  {
    var r := ReadPart(server, c, ev);
    if r.thrown then r.conn.(alive := false)
    else if !ev.writable then r.conn
    else
      var w := WritePart(r.conn, ev);
      if w.thrown then w.conn.(alive := false) else w.conn
  }

  /** A run: events are delivered until the client is dead and gets closed. */
  function HandleAll(server: Server, c: Conn, evs: seq<Readiness>): (c': Conn)
    requires Valid(c)
    ensures Valid(c')
    decreases |evs|
  {
    if evs == [] || !c.alive then c else HandleAll(server, Handle(server, c, evs[0]), evs[1..])
  }

  // ---------- what a client waits for ----------

  datatype Interest = In | Out

  /** get_required_events */
  function RequiredEvents(c: Conn): Interest {
    if (c.pending != "" && c.mode == Command) || c.queue != [] || c.mode == Download then Out else In
  }

  /** Only what was asked for is delivered. */
  predicate Asked(c: Conn, ev: Readiness) {
    && (ev.readable ==> RequiredEvents(c) == In)
    && (ev.writable ==> RequiredEvents(c) == Out)
  }

  // ---------- the output stream ----------

  /** The answer to an event: a reply, or the announced part of a file. */
  ghost function OwedBy(e: Event): string {
    match e
    case Executed(_, Reply(text, _)) => text
    case Executed(_, StartUpload(text, _, _)) => text
    case Executed(_, StartDownload(content, offset)) => content[offset..]
    case Executed(_, Fatal(Some(text))) => text
    case Refused(_, text) => text
    case _ => ""
  }

  ghost function Owed(log: seq<Event>): string {
    if log == [] then "" else Owed(log[..|log| - 1]) + OwedBy(log[|log| - 1])
  }

  lemma OwedPush(log: seq<Event>, e: Event)
    ensures Owed(log + [e]) == Owed(log) + OwedBy(e)
  {
    assert (log + [e])[..|log|] == log;
  }

  lemma {:induction false} OwedStored(log: seq<Event>, bytes: string)
    ensures Owed(log + StoredBytes(bytes)) == Owed(log)
  {
    if bytes == "" {
      assert log + StoredBytes(bytes) == log;
    } else {
      hide Owed, StoredBytes;
      var n := |bytes| - 1;
      OwedStored(log, bytes[..n]);
      OwedPush(log + StoredBytes(bytes[..n]), Stored(bytes[n]));
      StoredPush(log, bytes, n);
      assert bytes[..n + 1] == bytes;
    }
  }

  ghost function BodyLeft(c: Conn): string
    requires Valid(c)
  {
    if c.transfer.Some? then c.transfer.value.Rest() else ""
  }

  /** Written bytes, then queued replies, then the rest of the file being sent: exactly
      the answers to everything that happened, in order. */
  ghost predicate Balanced(c: Conn)
    requires Valid(c)
  {
    c.written + Unsent(c.queue) + BodyLeft(c) == Owed(c.log)
  }

  lemma ReplyBalanced(c: Conn, e: Event)
    requires Valid(c) && Balanced(c) && c.mode != Download
    ensures var c' := AddReply(c, OwedBy(e)).(log := c.log + [e]); Valid(c') && Balanced(c')
  {
    var r := Response(OwedBy(e), 0);
    UnsentPush(c.queue, r);
    OwedPush(c.log, e);
    assert r.Remaining() == OwedBy(e);
    assert c.written + Unsent(c.queue) + "" == c.written + Unsent(c.queue);
    Regroup(c.written, Unsent(c.queue), OwedBy(e));
  }

  lemma ExecuteBalanced(server: Server, c: Conn, request: I.Request)
    requires Valid(c) && Balanced(c) && c.mode == Command
    ensures var r := Execute(server, c, request); Valid(r.conn) && Balanced(r.conn)
  {
    var action := server.execute(c.log, request);
    var e := Executed(request, action);
    match action
    case Reply(_, _) => ReplyBalanced(c, e);
    case StartUpload(_, _, _) => ReplyBalanced(c, e);
    case StartDownload(content, offset) =>
      OwedPush(c.log, e);
      assert c.written + Unsent(c.queue) + "" == c.written + Unsent(c.queue);
    case Fatal(queued) =>
      if queued.Some? {
        ReplyBalanced(c, e);
      } else {
        OwedPush(c.log, e);
        assert Owed(c.log) + "" == Owed(c.log);
      }
  }

  lemma RoundBalanced(server: Server, c: Conn, input: string)
    requires Valid(c) && Balanced(c)
    ensures var r := Round(server, c, input); Valid(r.conn) && Balanced(r.conn)
  {
    match c.mode
    case Command =>
      var outcome := I.Commit(c.interp, input);
      I.CommitKeepsValid(c.interp, input);
      OutcomeBalanced(server, c, outcome);
    case Download =>
    case Upload => UploadBalanced(server, c, input);
  }

  lemma UploadBalanced(server: Server, c: Conn, input: string)
    requires Valid(c) && Balanced(c) && c.mode == Upload
    ensures var r := HandleUpload(server, c, input); Valid(r.conn) && Balanced(r.conn)
  {
    hide Owed, Unsent;
    var left := c.uploadLeft.value;
    var count := if |input| < left then |input| else left;
    OwedStored(c.log, input[..count]);
    OwedPush(c.log + StoredBytes(input[..count]), Finished);
    OwedPush(c.log + StoredBytes(input[..count]), Unplaced);
    assert Owed(c.log) + "" == Owed(c.log);
  }

  lemma OutcomeBalanced(server: Server, c: Conn, outcome: I.Outcome)
    requires Valid(c) && Balanced(c) && c.mode == Command
    requires outcome.Done? ==> I.Valid(outcome.state)
    ensures var r := HandleOutcome(server, c, outcome); Valid(r.conn) && Balanced(r.conn)
  {
    match outcome
    case Done(s, rest) =>
      if s.request.Some? { ExecuteBalanced(server, c.(interp := I.INIT), s.request.value); }
    case Thrown(e, rest) =>
      ReplyBalanced(c.(interp := I.INIT), Refused(e, server.refusal(e)));
  }

  lemma {:induction false} BatchBalanced(server: Server, c: Conn, input: string)
    requires Valid(c) && Balanced(c) && input != ""
    ensures Balanced(Batch(server, c, input).conn)
    decreases |input|, c.mode == Upload
  {
    RoundProgress(server, c, input);
    RoundBalanced(server, c, input);
    var r := Round(server, c, input);
    if !r.thrown && r.rest != "" { BatchBalanced(server, r.conn, r.rest); }
  }

  lemma ReadBalanced(server: Server, c: Conn, ev: Readiness)
    requires Valid(c) && Balanced(c)
    ensures Balanced(ReadPart(server, c, ev).conn)
  {
    RoundBalanced(server, c, "");
    if c.pending != "" { BatchBalanced(server, c, c.pending); }
    if ev.received.Some? && ev.received.value != "" { BatchBalanced(server, c, ev.received.value); }
  }

  lemma WriteBalanced(c: Conn, ev: Readiness)
    requires Valid(c) && Balanced(c)
    ensures Balanced(WritePart(c, ev).conn)
  {
    if c.queue != [] {
      var w := Write(c.queue, ev.accepts);
      Regroup(c.written, w.sent, Unsent(w.queue));
    } else if c.mode == Download && c.transfer.Some? {
      var s := SendBody(c.transfer.value, ev.moved);
      assert c.written + "" == c.written;
      Regroup(c.written, s.bytes, if s.transfer.Some? then s.transfer.value.Rest() else "");
      assert c.written + s.bytes + "" == c.written + s.bytes;
    }
  }

  /** At every point of every run the output is the in-order concatenation of the answers:
      no file byte precedes an earlier reply and no reply interrupts a file body. */
  lemma {:induction false} OutputConserved(server: Server, c: Conn, evs: seq<Readiness>)
    requires Valid(c) && Balanced(c)
    ensures Balanced(HandleAll(server, c, evs))
    decreases |evs|
  {
    if evs != [] && c.alive {
      ReadBalanced(server, c, evs[0]);
      var r := ReadPart(server, c, evs[0]);
      WriteBalanced(r.conn, evs[0]);
      OutputConserved(server, Handle(server, c, evs[0]), evs[1..]);
    }
  }

  /** The client never gets a byte it is not owed, and whenever the server waits for more
      input everything owed has been written. */
  lemma AllAnswered(server: Server, evs: seq<Readiness>)
    ensures var c := HandleAll(server, START, evs);
      && c.written <= Owed(c.log)
      && (RequiredEvents(c) == In ==> c.written == Owed(c.log))
  {
    OutputConserved(server, START, evs);
  }

  // ---------- the input stream ----------

  predicate Reads(c: Conn, ev: Readiness) {
    c.pending == "" && ev.readable && ev.received.Some?
  }

  /** All bytes a run read from the socket, in order. */
  function Stream(server: Server, c: Conn, evs: seq<Readiness>): string
    requires Valid(c)
    decreases |evs|
  {
    if evs == [] || !c.alive then ""
    else
      (if Reads(c, evs[0]) then evs[0].received.value else "")
      + Stream(server, Handle(server, c, evs[0]), evs[1..])
  }

  /** Events are the ones asked for, and every batch is non-empty and clean. */
  ghost predicate CleanRun(server: Server, c: Conn, evs: seq<Readiness>)
    requires Valid(c)
    decreases |evs|
  {
    evs != [] && c.alive ==>
    && Asked(c, evs[0])
    && (Reads(c, evs[0]) ==>
          && evs[0].received.value != ""
          && Clean(server, InputOf(c), evs[0].received.value))
    && CleanRun(server, Handle(server, c, evs[0]), evs[1..])
  }

  /** What a run did with its input (requests executed, lines refused, bytes stored, and
      what the interpreter still holds) depends only on the bytes read, in order, and not
      on how they were cut into batches or when replies and files were sent. */
  lemma {:induction false} StreamDecides(server: Server, c: Conn, evs: seq<Readiness>)
    requires Valid(c) && c.pending == "" && CleanRun(server, c, evs)
    ensures InputOf(HandleAll(server, c, evs)) == Run(server, InputOf(c), Stream(server, c, evs))
    decreases |evs|
  {
    if evs != [] && c.alive {
      var ev, c' := evs[0], Handle(server, c, evs[0]);
      var bytes := if Reads(c, ev) then ev.received.value else "";
      HandleReads(server, c, ev);
      StreamDecides(server, c', evs[1..]);
      RunAppend(server, InputOf(c), bytes, Stream(server, c', evs[1..]));
    }
  }

  lemma HandleReads(server: Server, c: Conn, ev: Readiness)
    requires Valid(c) && c.pending == ""
    requires Reads(c, ev) ==>
      ev.received.value != "" && c.mode != Download && Clean(server, InputOf(c), ev.received.value)
    ensures var c', bytes := Handle(server, c, ev), if Reads(c, ev) then ev.received.value else "";
      InputOf(c') == Run(server, InputOf(c), bytes) && c'.pending == ""
  {
    var r := ReadPart(server, c, ev);
    if Reads(c, ev) {
      BatchIsRun(server, c, ev.received.value);
    } else {
      assert InputOf(r.conn) == InputOf(c) && r.conn.pending == "";
    }
    WriteKeepsInput(r.conn, ev);
    var c' := Handle(server, c, ev);
    assert InputOf(c') == InputOf(r.conn) && c'.pending == r.conn.pending;
  }

  lemma WriteKeepsInput(c: Conn, ev: Readiness)
    requires Valid(c)
    ensures InputOf(WritePart(c, ev).conn) == InputOf(c) && WritePart(c, ev).conn.pending == c.pending
  {
  }

  /** Two runs that read the same bytes did the same with them. */
  lemma SameStreamSameLog(server: Server, evs: seq<Readiness>, evs': seq<Readiness>)
    requires CleanRun(server, START, evs) && CleanRun(server, START, evs')
    requires Stream(server, START, evs) == Stream(server, START, evs')
    ensures InputOf(HandleAll(server, START, evs)) == InputOf(HandleAll(server, START, evs'))
  {
    StreamDecides(server, START, evs);
    StreamDecides(server, START, evs');
  }

  /** Bytes that follow a `dls` in its batch are never read: they are parked, and the next
      event, whatever it brings, throws them away. */
  lemma PipelinedAfterDlsLost(server: Server, c: Conn, p: string, q: string, ev: Readiness)
    requires Valid(c) && c.mode != Download && p != "" && q != ""
    requires Clean(server, InputOf(c), p)
    requires var r := Batch(server, c, p); !r.thrown && r.conn.mode == Download
    ensures var c' := Batch(server, c, p + q).conn;
      && c'.pending == q
      && Handle(server, c', ev).pending == ""
      && InputOf(Handle(server, c', ev)) == Run(server, InputOf(c), p)
  {
    BatchParks(server, c, p, q);
    BatchIsRun(server, c, p);
    var c' := Batch(server, c, p + q).conn;
    assert ReadPart(server, c', ev) == Turn(c'.(pending := ""), "", false);
    WriteKeepsInput(c'.(pending := ""), ev);
  }

  /** `exit` does not end its batch: what follows it is executed when it came with it, and
      not when it came later. */
  lemma ExitDoesNotEndBatch(server: Server, c: Conn, p: Readiness, q: Readiness, both: Readiness)
    requires Valid(c) && c.alive && c.mode != Download && Reads(c, p) && Reads(c, q) && Reads(c, both)
    requires p.received.value != "" && q.received.value != ""
    requires both.received.value == p.received.value + q.received.value
    requires Clean(server, InputOf(c), both.received.value)
    requires !Handle(server, c, p).alive
    ensures InputOf(HandleAll(server, c, [p, q])) == Run(server, InputOf(c), p.received.value)
    ensures InputOf(HandleAll(server, c, [both])) == Run(server, InputOf(c), both.received.value)
  {
    hide Run, Clean, Handle;
    CleanSplit(server, InputOf(c), p.received.value, q.received.value);
    HandleReads(server, c, p);
    HandleReads(server, c, both);
    LastEvent(server, c, p, [q]);
    LastEvent(server, c, both, []);
    assert [p, q] == [p] + [q] && [both] == [both] + [];
  }

  lemma LastEvent(server: Server, c: Conn, ev: Readiness, evs: seq<Readiness>)
    requires Valid(c) && c.alive && (evs == [] || !Handle(server, c, ev).alive)
    ensures HandleAll(server, c, [ev] + evs) == Handle(server, c, ev)
  {
    assert ([ev] + evs)[1..] == evs;
  }

  // ---------- downloads ----------

  /** The socket keeps taking bytes. */
  ghost predicate Flows(evs: seq<Readiness>) { forall ev <- evs :: !ev.readable && ev.writable && ev.moved > 0 }

  function Moved(evs: seq<Readiness>): nat { if evs == [] then 0 else evs[0].moved + Moved(evs[1..]) }

  /** A client that is sending a file and has no reply left to send. */
  ghost predicate Sending(c: Conn) {
    Valid(c) && c.alive && c.mode == Download && c.transfer.Some? && c.queue == []
  }

  /** The connection once `count` more bytes of its file have gone, or all of them. */
  ghost function After(c: Conn, count: nat): Conn
    requires Sending(c)
  {
    var t := c.transfer.value;
    if count < |t.Rest()|
    then c.(transfer := Some(t.(offset := t.offset + count)), written := c.written + t.Rest()[..count])
    else c.(transfer := None, mode := Command, written := c.written + t.Rest())
  }

  lemma OneTransfer(server: Server, c: Conn, ev: Readiness)
    requires Sending(c) && c.pending == "" && BodyLeft(c) != "" && |BodyLeft(c)| % UINT_COUNT != UINT_COUNT - 1
    requires !ev.readable && ev.writable && ev.moved > 0
    ensures Handle(server, c, ev) == After(c, ev.moved)
  {
    var t := c.transfer.value;
    assert t.Rest()[..|t.content| - t.offset] == t.Rest();
  }

  lemma AfterAfter(c: Conn, a: nat, b: nat)
    requires Sending(c) && a < |BodyLeft(c)|
    ensures Sending(After(c, a)) && After(After(c, a), b) == After(c, a + b)
    ensures After(c, a).pending == c.pending && |BodyLeft(After(c, a))| == |BodyLeft(c)| - a
  {
    hide Unsent;
    var rest := BodyLeft(c);
    assert BodyLeft(After(c, a)) == rest[a..];
    Halves(c.written, rest, a, if a + b < |rest| then b else |rest| - a);
  }

  lemma Halves(before: string, text: string, a: nat, b: nat)
    requires a + b <= |text|
    ensures before + text[..a] + text[a..][..b] == before + text[..a + b]
    ensures a + b == |text| ==> before + text[..a] + text[a..] == before + text
  {
    assert text[..a] + text[a..][..b] == text[..a + b];
    assert text[..a] + text[a..] == text;
  }

  lemma AfterAll(c: Conn, a: nat, b: nat)
    requires Sending(c) && a >= |BodyLeft(c)|
    ensures After(c, a) == After(c, a + b) && Valid(After(c, a))
    ensures After(c, a).mode == Command && After(c, a).queue == [] && After(c, a).pending == c.pending
  {
  }

  lemma AfterNone(c: Conn)
    requires Sending(c) && BodyLeft(c) != ""
    ensures After(c, 0) == c
  {
    assert BodyLeft(c)[..0] == "" && c.written + "" == c.written;
  }

  /** A client with nothing to send ignores that it may. */
  lemma {:induction false} NothingToSend(server: Server, c: Conn, evs: seq<Readiness>)
    requires Valid(c) && c.mode == Command && c.queue == [] && c.pending == "" && Flows(evs)
    ensures HandleAll(server, c, evs) == c
    decreases |evs|
  {
    if evs != [] && c.alive {
      assert evs[0] in evs && forall ev <- evs[1..] :: ev in evs;
      NothingToSend(server, c, evs[1..]);
    }
  }

  /** A download sends exactly the announced part of the file, and the client is back in
      command mode exactly when the last byte has gone, over every sequence of partial
      transfers. */
  lemma {:induction false} DownloadExact(server: Server, c: Conn, evs: seq<Readiness>)
    requires Sending(c) && c.pending == "" && 0 < |BodyLeft(c)| < 0xFFFF_FFFF && Flows(evs)
    ensures HandleAll(server, c, evs) == After(c, Moved(evs))
    decreases |evs|
  {
    hide Handle, After, Unsent;
    if evs == [] {
      AfterNone(c);
    } else {
      var ev, rest := evs[0], evs[1..];
      assert ev in evs && forall e <- rest :: e in evs;
      assert |BodyLeft(c)| % UINT_COUNT == |BodyLeft(c)|;
      OneTransfer(server, c, ev);
      if ev.moved < |BodyLeft(c)| {
        AfterAfter(c, ev.moved, Moved(rest));
        DownloadExact(server, After(c, ev.moved), rest);
      } else {
        AfterAll(c, ev.moved, Moved(rest));
        NothingToSend(server, After(c, ev.moved), rest);
      }
    }
  }

  /** Which downloads survive every socket: not those of an empty rest of a non-empty file
      (`dl` with the file's size as offset), nor those long enough for the count asked for
      to turn into -1 when it is squeezed into an `int`. */
  lemma DownloadSafe(server: Server, c: Conn)
    requires Sending(c) && c.pending == ""
    ensures (forall evs | Flows(evs) :: HandleAll(server, c, evs).alive) <==> 0 < |BodyLeft(c)| < 0xFFFF_FFFF
  {
    if 0 < |BodyLeft(c)| < 0xFFFF_FFFF {
      forall evs | Flows(evs) ensures HandleAll(server, c, evs).alive { DownloadExact(server, c, evs); }
    } else {
      var evs := Spoiling(server, c);
      assert !HandleAll(server, c, evs).alive;
    }
  }

  function Push(count: nat): Readiness { Readiness(false, true, None, [], false, count) }

  lemma SpoiledAtOnce(server: Server, c: Conn)
    requires Sending(c) && c.pending == ""
    requires BodyLeft(c) == "" || |BodyLeft(c)| % UINT_COUNT == UINT_COUNT - 1
    ensures !HandleAll(server, c, [Push(1)]).alive
  {
    assert [Push(1)][0] == Push(1);
    assert !Handle(server, c, Push(1)).alive;
  }

  lemma Spoiling(server: Server, c: Conn) returns (evs: seq<Readiness>)
    requires Sending(c) && c.pending == "" && !(0 < |BodyLeft(c)| < 0xFFFF_FFFF)
    ensures Flows(evs) && !HandleAll(server, c, evs).alive
  {
    hide Handle, After;
    var left := |BodyLeft(c)|;
    if left == 0 || left % UINT_COUNT == UINT_COUNT - 1 {
      SpoiledAtOnce(server, c);
      evs := [Push(1)];
    } else {
      var extra := left - (UINT_COUNT - 1);
      OneTransfer(server, c, Push(extra));
      AfterAfter(c, extra, 1);
      SpoiledAtOnce(server, After(c, extra));
      evs := [Push(extra), Push(1)];
      assert evs[1..] == [Push(1)];
    }
  }

  // ---------- the class ----------

  class Client {
    const server: Server
    const interpreter: I.ProtocolInterpreter
    const sender: Sender
    const downloads: DownloadManager
    var alive: bool
    var mode: Mode
    var pendingInput: string
    var uploadLeft: Option<nat>
    var log: seq<Event>
    var written: string

    function View(): Conn
      reads this, interpreter, sender, downloads
    {
      Conn(alive, mode, interpreter.View(), pendingInput, sender.responses, downloads.transfer, uploadLeft, log, written)
    }

    constructor (server: Server)
      ensures View() == START && this.server == server
      ensures fresh(interpreter) && fresh(sender) && fresh(downloads)
    {
      this.server := server;
      interpreter := new I.ProtocolInterpreter();
      sender := new Sender();
      downloads := new DownloadManager();
      alive, mode, pendingInput, uploadLeft, log, written := true, Command, "", None, [], "";
    }

    method ExecuteCommand(request: I.Request) returns (thrown: bool)
      requires Valid(View()) && mode == Command
      modifies this, sender, downloads
      ensures Turn(View(), "", thrown) == Execute(server, old(View()), request)
    {
      var action := server.execute(log, request);
      log := log + [Executed(request, action)];
      thrown := false;
      match action {
        case Reply(text, kill) =>
          sender.AddResponse(text);
          if kill { alive := false; }
        case StartUpload(text, size, offset) =>
          mode := Upload;
          sender.AddResponse(text);
          uploadLeft := Some(size - offset);
        case StartDownload(content, offset) =>
          mode := Download;
          downloads.StartDownload(content, offset);
        case Fatal(queued) =>
          if queued.Some? { sender.AddResponse(queued.value); }
          alive := false;
          thrown := true;
      }
    }

    method HandleRequestBytes(input: string) returns (rest: string, thrown: bool)
      requires Valid(View()) && mode == Command
      modifies this, interpreter, sender, downloads
      ensures Turn(View(), rest, thrown) == HandleRequest(server, old(View()), input)
    {
      ghost var c, outcome := View(), I.Commit(interpreter.View(), input);
      var error;
      rest, error := interpreter.CommitBytes(input);
      thrown := false;
      if error.Some? {
        var text := server.refusal(error.value);
        sender.AddResponse(text);
        log := log + [Refused(error.value, text)];
        interpreter.Restart();
      } else if interpreter.request.Some? {
        var request := interpreter.GetRequest();
        assert View() == c.(interp := I.INIT);
        thrown := ExecuteCommand(request);
      }
      assert Turn(View(), rest, thrown) == HandleOutcome(server, c, outcome);
    }

    method HandleUploadBytes(input: string) returns (rest: string, thrown: bool)
      requires Valid(View()) && mode == Upload
      modifies this
      ensures Turn(View(), rest, thrown) == HandleUpload(server, old(View()), input)
    {
      var left := uploadLeft.value;
      var count := if |input| < left then |input| else left;
      log := log + StoredBytes(input[..count]);
      uploadLeft := Some(left - count);
      rest, thrown := input[count..], false;
      if left - count == 0 {
        if !server.places(log) {
          log := log + [Unplaced];
          return rest, true;
        }
        log := log + [Finished];
        uploadLeft := None;
        mode := Command;
      }
    }

    method HandleRound(input: string) returns (rest: string, thrown: bool)
      requires Valid(View())
      modifies this, interpreter, sender, downloads
      ensures Turn(View(), rest, thrown) == Round(server, old(View()), input)
    {
      match mode {
        case Command => rest, thrown := HandleRequestBytes(input);
        case Download =>
          pendingInput := input;
          rest, thrown := "", false;
        case Upload =>
          rest, thrown := HandleUploadBytes(input);
      }
    }

    method HandleBytes(input: string) returns (rest: string, thrown: bool)
      requires Valid(View())
      modifies this, interpreter, sender, downloads
      ensures Turn(View(), rest, thrown) == HandleInput(server, old(View()), input)
    {
      hide Round;
      ghost var start := View();
      if input != "" { RoundProgress(server, start, input); }
      rest, thrown := HandleRound(input);
      while !thrown && rest != ""
        invariant Valid(View())
        invariant HandleInput(server, start, input) ==
          if !thrown && rest != "" then Batch(server, View(), rest) else Turn(View(), rest, thrown)
        decreases !thrown, |rest|, mode == Upload
      {
        RoundProgress(server, View(), rest);
        rest, thrown := HandleRound(rest);
      }
    }

    method HandleOutput(ev: Readiness) returns (thrown: bool)
      requires Valid(View())
      modifies this, sender, downloads
      ensures Turn(View(), "", thrown) == WritePart(old(View()), ev)
    {
      thrown := false;
      var sent;
      if sender.responses != [] {
        sent, thrown := sender.Send(ev.accepts, ev.broken);
        written := written + sent;
      } else if mode == Download {
        sent, thrown := downloads.Send(ev.moved);
        assert written + "" == written;
        written := written + sent;
        if downloads.transfer.None? { mode := Command; }
      }
    }

    method HandleEvent(ev: Readiness)
      requires Valid(View())
      modifies this, interpreter, sender, downloads
      ensures View() == Handle(server, old(View()), ev)
    {
      var rest, thrown := "", false;
      if pendingInput != "" {
        rest, thrown := HandleBytes(pendingInput);
        if !thrown { pendingInput := rest; }
      } else if ev.readable {
        if ev.received.None? {
          thrown := true;
        } else {
          rest, thrown := HandleBytes(ev.received.value);
        }
      }
      if !thrown && ev.writable {
        thrown := HandleOutput(ev);
      }
      if thrown { alive := false; }
    }
  }
}
