/** One connection: server/src/server/client.cpp with its sender and download manager.

    One input stream is shared by requests and upload bytes, one output stream by replies
    and file bodies. `Batch` and `Handle` are what the code does with the bytes of one
    readiness event; `Run` reads a stream byte by byte and knows nothing of events. */
module Connection {
  import opened Options
  import opened Text
  import opened ProtocolMode
  import opened Widths
  import I = Interpreter

  /** What executing a command makes the connection do: reply, and perhaps die (`exit`, a
      third bad password); reply and receive a file; send a file instead of a reply; or die
      of an error that is not a protocol error, which may come after a reply was queued. */
  datatype RawAction =
    | Reply(text: string, kill: bool)
    | StartUpload(text: string, size: nat, offset: nat)
    | StartDownload(content: string, offset: nat)
    | Fatal(queued: Option<string>)

  type Action = a: RawAction
    | (a.StartUpload? ==> a.offset <= a.size) && (a.StartDownload? ==> a.offset <= |a.content|)
    witness Fatal(None)

  /** What happened on a connection, in order. */
  datatype Event = Executed(request: I.Request, action: Action) | Refused(error: I.Error, text: string)
    | Stored(byte: char) | Finished | Unplaced

  /** The server behind the connection: any function of what happened so far. `places` says
      whether the file of an upload can be put in place when its last byte has come. */
  datatype Server = Server(execute: (seq<Event>, I.Request) -> Action, refusal: I.Error -> string, places: seq<Event> -> bool)

  // ---------- replies ----------

  datatype Response = Response(data: string, offset: nat) {
    ghost predicate Valid() { offset <= |data| }
    function Remaining(): string requires Valid() { data[offset..] }
  }

  ghost predicate ValidQueue(queue: seq<Response>) { forall r <- queue :: r.Valid() }

  ghost function Unsent(queue: seq<Response>): string
    requires ValidQueue(queue)
  {
    if queue == [] then "" else queue[0].Remaining() + Unsent(queue[1..])
  }

  lemma {:induction false} UnsentPush(queue: seq<Response>, r: Response)
    requires ValidQueue(queue) && r.Valid()
    ensures ValidQueue(queue + [r]) && Unsent(queue + [r]) == Unsent(queue) + r.Remaining()
  {
    if queue == [] {
      assert queue + [r] == [r] && [r][1..] == [];
    } else {
      UnsentPush(queue[1..], r);
      assert (queue + [r])[1..] == queue[1..] + [r];
    }
  }

  datatype WriteResult = WriteResult(queue: seq<Response>, sent: string)

  /** One write(2) that takes `accepted` bytes of the response at the front. */
  function WriteOne(queue: seq<Response>, accepted: nat): (w: WriteResult)
    requires ValidQueue(queue) && queue != []
    ensures ValidQueue(w.queue) && w.sent + Unsent(w.queue) == Unsent(queue)
  {
    var left := queue[0].Remaining();
    var count := if accepted < |left| then accepted else |left|;
    var front := queue[0].(offset := queue[0].offset + count);
    SplitFront(queue, count);
    if front.offset == |front.data| then WriteResult(queue[1..], left[..count])
    else WriteResult([front] + queue[1..], left[..count])
  }

  lemma SplitFront(queue: seq<Response>, count: nat)
    requires ValidQueue(queue) && queue != [] && count <= |queue[0].Remaining()|
    ensures var front, sent := queue[0].(offset := queue[0].offset + count), queue[0].Remaining()[..count];
      && front.Valid() && ValidQueue(queue[1..]) && ValidQueue([front] + queue[1..])
      && sent + Unsent([front] + queue[1..]) == Unsent(queue)
      && (front.offset == |front.data| ==> sent + Unsent(queue[1..]) == Unsent(queue))
  {
    var front, sent := queue[0].(offset := queue[0].offset + count), queue[0].Remaining()[..count];
    assert queue[0].Remaining() == sent + front.Remaining();
    assert ([front] + queue[1..])[1..] == queue[1..];
    Regroup(sent, front.Remaining(), Unsent(queue[1..]));
    assert sent + "" == sent;
  }

  /** A write takes something: the socket does, and there is something to take. */
  predicate Takes(queue: seq<Response>, accepted: int)
    requires ValidQueue(queue)
  {
    queue != [] && accepted > 0 && queue[0].Remaining() != ""
  }

  /** Sender::write against a socket that takes accepts[0] bytes of the first write,
      accepts[1] of the second, and so on; a write that takes nothing stops the loop. */
  function Write(queue: seq<Response>, accepts: seq<int>): (w: WriteResult)
    requires ValidQueue(queue)
    ensures ValidQueue(w.queue) && w.sent + Unsent(w.queue) == Unsent(queue)
    decreases |accepts|
  {
    hide Unsent, WriteOne;
    if accepts == [] || !Takes(queue, accepts[0]) then WriteResult(queue, "")
    else
      var one := WriteOne(queue, accepts[0]);
      var w := Write(one.queue, accepts[1..]);
      Regroup(one.sent, w.sent, Unsent(w.queue));
      WriteResult(w.queue, one.sent + w.sent)
  }

  lemma WriteUnfolds(queue: seq<Response>, accepts: seq<int>, i: nat, sent: string)
    requires ValidQueue(queue) && i < |accepts| && Takes(queue, accepts[i])
    ensures var one := WriteOne(queue, accepts[i]);
      var w, v := Write(queue, accepts[i..]), Write(one.queue, accepts[i + 1..]);
      w.queue == v.queue && sent + w.sent == sent + one.sent + v.sent
  {
    hide WriteOne, Unsent;
    assert accepts[i..][1..] == accepts[i + 1..];
    var one := WriteOne(queue, accepts[i]);
    Regroup(sent, one.sent, Write(one.queue, accepts[i + 1..]).sent);
  }

  lemma WriteWhole(queue: seq<Response>, accepts: seq<int>)
    requires ValidQueue(queue)
    ensures var w := Write(queue, accepts[0..]); Write(queue, accepts) == WriteResult(w.queue, "" + w.sent)
  {
    hide Write;
    assert accepts[0..] == accepts;
  }

  lemma WriteStops(queue: seq<Response>, accepts: seq<int>, i: nat, sent: string)
    requires ValidQueue(queue) && i <= |accepts| && !(i < |accepts| && Takes(queue, accepts[i]))
    ensures var w := Write(queue, accepts[i..]); w.queue == queue && sent + w.sent == sent
  {
    hide Unsent, WriteOne;
  }

  class Sender {
    var responses: seq<Response>

    constructor ()
      ensures responses == []
    {
      responses := [];
    }

    method AddResponse(text: string)
      modifies this
      ensures responses == old(responses) + [Response(text, 0)]
    {
      responses := responses + [Response(text, 0)];
    }

    /** The write of one turn of the loop. */
    method SendFront(accepted: nat) returns (bytes: string)
      requires ValidQueue(responses) && responses != []
      modifies this
      ensures WriteResult(responses, bytes) == WriteOne(old(responses), accepted)
    {
      hide Unsent;
      var response := responses[0];
      var left := response.Remaining();
      var count := if accepted < |left| then accepted else |left|;
      bytes := left[..count];
      response := response.(offset := response.offset + count);
      if response.offset == |response.data| {
        responses := responses[1..];
      } else {
        responses := [response] + responses[1..];
      }
    }

    /** `broken` says that the last write left an error other than "try again". */
    method Send(accepts: seq<int>, broken: bool) returns (sent: string, thrown: bool)
      requires ValidQueue(responses)
      modifies this
      ensures WriteResult(responses, sent) == Write(old(responses), accepts)
      ensures thrown == broken
    {
      hide Unsent, Write, WriteOne;
      sent := "";
      var i := 0;
      WriteWhole(responses, accepts);
      while i < |accepts| && Takes(responses, accepts[i])
        invariant 0 <= i <= |accepts| && ValidQueue(responses)
        invariant var w := Write(responses, accepts[i..]);
          Write(old(responses), accepts) == WriteResult(w.queue, sent + w.sent)
        decreases |accepts| - i
      {
        WriteUnfolds(responses, accepts, i, sent);
        var bytes := SendFront(accepts[i]);
        sent := sent + bytes;
        i := i + 1;
      }
      WriteStops(responses, accepts, i, sent);
      thrown := broken;
    }
  }

  // ---------- file bodies ----------

  /** The download manager's open file. */
  datatype Transfer = Transfer(content: string, offset: nat) {
    ghost predicate Valid() { offset <= |content| }
    function Rest(): string requires Valid() { content[offset..] }
  }

  datatype SendResult = SendResult(transfer: Option<Transfer>, bytes: string, thrown: bool)

  /** DownloadManager::send when the socket takes `moved` bytes. The count asked for is
      squeezed into an `int` and compared with -1, and a transfer that moves nothing is an
      error. */
  function SendBody(t: Transfer, moved: nat): (r: SendResult)
    requires t.Valid()
    ensures r.transfer.Some? ==> r.transfer.value.Valid()
    ensures t.Rest() == r.bytes + if r.transfer.Some? then r.transfer.value.Rest() else ""
    ensures r.transfer.None? ==> !r.thrown
  {
    var asked := |t.content| - t.offset;
    var count := if moved < asked then moved else asked;
    var t' := t.(offset := t.offset + count);
    if asked % UINT_COUNT == UINT_COUNT - 1 || count == 0 then SendResult(Some(t'), t.Rest()[..count], true)
    else SendResult(if t'.offset == |t.content| then None else Some(t'), t.Rest()[..count], false)
  }

  class DownloadManager {
    var transfer: Option<Transfer>

    constructor ()
      ensures transfer == None
    {
      transfer := None;
    }

    /** An empty file is finished before it starts. */
    method StartDownload(content: string, offset: nat)
      modifies this
      ensures transfer == if content == "" then old(transfer) else Some(Transfer(content, offset))
    {
      if |content| > 0 {
        transfer := Some(Transfer(content, offset));
      }
    }

    method Send(moved: nat) returns (bytes: string, thrown: bool)
      requires transfer.Some? ==> transfer.value.Valid()
      modifies this
      ensures SendResult(transfer, bytes, thrown) ==
        if old(transfer).None? then SendResult(None, "", false) else SendBody(old(transfer).value, moved)
    {
      if transfer.None? { return "", false; }
      var t := transfer.value;
      var asked := |t.content| - t.offset;
      var count := if moved < asked then moved else asked;
      bytes := t.content[t.offset..][..count];
      transfer := Some(t.(offset := t.offset + count));
      if asked % UINT_COUNT == UINT_COUNT - 1 {
        return bytes, true;
      } else if count == 0 {
        return bytes, true;
      } else if t.offset + count == |t.content| {
        transfer := None;
      }
      thrown := false;
    }
  }

  // ---------- the connection ----------

  datatype Conn = Conn(alive: bool, mode: Mode, interp: I.State, pending: string, queue: seq<Response>,
                       transfer: Option<Transfer>, uploadLeft: Option<nat>, log: seq<Event>, written: string)

  const START := Conn(true, Command, I.INIT, "", [], None, None, [], "")

  ghost predicate Valid(c: Conn) {
    && I.Valid(c.interp) && c.interp.request.None?
    && ValidQueue(c.queue)
    && (c.transfer.Some? ==> c.mode == Download && c.transfer.value.Valid())
    && (c.mode == Upload <==> c.uploadLeft.Some?)
  }

  datatype Turn = Turn(conn: Conn, rest: string, thrown: bool)

  function AddReply(c: Conn, text: string): Conn { c.(queue := c.queue + [Response(text, 0)]) }

  /** execute_command */
  function Execute(server: Server, c: Conn, request: I.Request): Turn {
    var action := server.execute(c.log, request);
    var c := c.(log := c.log + [Executed(request, action)]);
    match action
    case Reply(text, kill) => Turn(AddReply(c, text).(alive := c.alive && !kill), "", false)
    case StartUpload(text, size, offset) =>
      Turn(AddReply(c, text).(mode := Upload, uploadLeft := Some(size - offset)), "", false)
    case StartDownload(content, offset) =>
      Turn(c.(mode := Download, transfer := if content == "" then None else Some(Transfer(content, offset))), "", false)
    case Fatal(queued) =>
      Turn((if queued.Some? then AddReply(c, queued.value) else c).(alive := false), "", true)
  }

  /** handle_request */
  function HandleRequest(server: Server, c: Conn, input: string): Turn
    requires Valid(c)
  {
    HandleOutcome(server, c, I.Commit(c.interp, input))
  }

  function HandleOutcome(server: Server, c: Conn, outcome: I.Outcome): Turn {
    match outcome
    case Done(s, rest) =>
      if s.request.Some? then Execute(server, c.(interp := I.INIT), s.request.value).(rest := rest)
      else Turn(c.(interp := s), rest, false)
    case Thrown(e, rest) =>
      var text := server.refusal(e);
      Turn(AddReply(c, text).(interp := I.INIT, log := c.log + [Refused(e, text)]), rest, false)
  }

  function StoredBytes(bytes: string): seq<Event> {
    seq(|bytes|, i requires 0 <= i < |bytes| => Stored(bytes[i]))
  }

  /** handle_upload; a file that cannot be put in place is an exception. */
  function HandleUpload(server: Server, c: Conn, input: string): Turn
    requires c.uploadLeft.Some?
  {
    var left := c.uploadLeft.value;
    var count := if |input| < left then |input| else left;
    var log := c.log + StoredBytes(input[..count]);
    if count < left then Turn(c.(log := log, uploadLeft := Some(left - count)), input[count..], false)
    else if server.places(log) then Turn(c.(log := log + [Finished], mode := Command, uploadLeft := None), input[count..], false)
    else Turn(c.(log := log + [Unplaced], uploadLeft := Some(0)), input[count..], true)
  }

  /** One round of handle_input. */
  function Round(server: Server, c: Conn, input: string): Turn
    requires Valid(c)
  {
    match c.mode
    case Command => HandleRequest(server, c, input)
    case Download => Turn(c.(pending := input), "", false)
    case Upload => HandleUpload(server, c, input)
  }

  lemma RequestProgress(server: Server, c: Conn, input: string)
    requires Valid(c) && c.mode == Command && input != ""
    ensures var r := HandleRequest(server, c, input); Valid(r.conn) && |r.rest| < |input|
  {
    CommitUsesAByte(c.interp, input);
    I.CommitKeepsValid(c.interp, input);
    OutcomeValid(server, c, I.Commit(c.interp, input));
  }

  lemma OutcomeValid(server: Server, c: Conn, outcome: I.Outcome)
    requires Valid(c) && c.mode == Command && (outcome.Done? ==> I.Valid(outcome.state))
    ensures var r := HandleOutcome(server, c, outcome); Valid(r.conn) && r.rest == outcome.rest
  {
  }

  lemma UploadProgress(server: Server, c: Conn, input: string)
    requires Valid(c) && c.mode == Upload && input != ""
    ensures var r := HandleUpload(server, c, input);
      Valid(r.conn) && (|r.rest| < |input| || r.thrown || (r.conn.mode == Command && r.rest == input))
  {
    if c.uploadLeft.value == 0 { assert input[0..] == input; }
  }

  /** Every round uses up a byte, or ends the loop, or ends an upload of which nothing is
      missing. */
  lemma RoundProgress(server: Server, c: Conn, input: string)
    requires Valid(c) && input != ""
    ensures var r := Round(server, c, input);
      && Valid(r.conn)
      && (|r.rest| < |input| || r.thrown || (c.mode == Upload && r.conn.mode == Command && r.rest == input))
  {
    match c.mode
    case Command => RequestProgress(server, c, input);
    case Download =>
    case Upload => UploadProgress(server, c, input);
  }

  lemma CommitUsesAByte(s: I.State, input: string)
    requires I.Valid(s) && s.request.None? && input != ""
    ensures |I.Commit(s, input).rest| < |input|
  {
    var n := I.FragmentLength(input);
    I.CommitLineValid(s, input[..n]);
    var step := I.CommitLine(s, input[..n]);
    if step.Next? { CommitShrinks(step.state, input[n..]); }
  }

  lemma {:induction false} CommitShrinks(s: I.State, input: string)
    requires I.Valid(s)
    ensures |I.Commit(s, input).rest| <= |input|
    decreases |input|
  {
    if input != "" && s.request.None? {
      var n := I.FragmentLength(input);
      I.CommitLineValid(s, input[..n]);
      var step := I.CommitLine(s, input[..n]);
      if step.Next? { CommitShrinks(step.state, input[n..]); }
    }
  }

  /** handle_input on a non-empty input; it ends on every input and in every mode. */
  function Batch(server: Server, c: Conn, input: string): (r: Turn)
    requires Valid(c) && input != ""
    ensures Valid(r.conn) && (!r.thrown ==> r.rest == "")
    decreases |input|, c.mode == Upload
  {
    RoundProgress(server, c, input);
    var r := Round(server, c, input);
    if r.thrown || r.rest == "" then r else Batch(server, r.conn, r.rest)
  }

  // ---------- the stream read byte by byte ----------

  /** The input side of a connection: it has no notion of events or of the output. */
  datatype Input = Input(interp: I.State, left: Option<nat>, log: seq<Event>)

  function InputOf(c: Conn): Input { Input(c.interp, c.uploadLeft, c.log) }

  ghost predicate ValidInput(i: Input) { I.Valid(i.interp) && i.interp.request.None? }

  function Perform(server: Server, i: Input, request: I.Request): (j: Input)
    ensures ValidInput(j)
  {
    var action := server.execute(i.log, request);
    Input(I.INIT, if action.StartUpload? then Some(action.size - action.offset) else None,
          i.log + [Executed(request, action)])
  }

  function Refuse(server: Server, i: Input, e: I.Error): (j: Input)
    ensures ValidInput(j)
  {
    Input(I.INIT, None, i.log + [Refused(e, server.refusal(e))])
  }

  function CommandByte(server: Server, i: Input, b: char): (j: Input)
    requires ValidInput(i) && i.left.None?
    ensures ValidInput(j)
  {
    I.CommitLineValid(i.interp, [b]);
    match I.CommitLine(i.interp, [b])
    case Next(s) => if s.request.Some? then Perform(server, i, s.request.value) else i.(interp := s)
    case Throw(e) => Refuse(server, i, e)
  }

  function FinishUpload(server: Server, i: Input): Input {
    if server.places(i.log) then i.(left := None, log := i.log + [Finished])
    else i.(left := Some(0), log := i.log + [Unplaced])
  }

  function Step(server: Server, i: Input, b: char): (j: Input)
    requires ValidInput(i)
    ensures ValidInput(j)
  {
    match i.left
    case None => CommandByte(server, i, b)
    case Some(left) =>
      if left == 0 then
        var j := FinishUpload(server, i);
        if j.left.None? then CommandByte(server, j, b) else j
      else
        var j := i.(left := Some(left - 1), log := i.log + [Stored(b)]);
        if left == 1 then FinishUpload(server, j) else j
  }

  function Run(server: Server, i: Input, stream: string): (j: Input)
    requires ValidInput(i)
    ensures ValidInput(j)
    decreases |stream|
  {
    if stream == "" then i else Run(server, Step(server, i, stream[0]), stream[1..])
  }

  lemma {:induction false} RunAppend(server: Server, i: Input, a: string, b: string)
    requires ValidInput(i)
    ensures Run(server, i, a + b) == Run(server, Run(server, i, a), b)
    decreases |a|
  {
    if a == "" {
      assert a + b == b;
    } else {
      assert (a + b)[0] == a[0] && (a + b)[1..] == a[1..] + b;
      RunAppend(server, Step(server, i, a[0]), a[1..], b);
    }
  }

  /** The byte that took `i` to `j` started a download or hit a fatal error: the code
      stops reading its batch there. */
  predicate Stops(i: Input, j: Input) {
    |j.log| > |i.log| && StopsAt(j.log[|j.log| - 1])
  }

  predicate StopsAt(e: Event) {
    e.Unplaced? || (e.Executed? && (e.action.StartDownload? || e.action.Fatal?))
  }

  predicate LimitHit(i: Input, j: Input) {
    |j.log| > |i.log| && j.log[|j.log| - 1].Refused? && j.log[|j.log| - 1].error.Limit()
  }

  /** Within the limits, and nothing behind a `dls` (or a fatal error) in the batch. */
  ghost predicate Clean(server: Server, i: Input, batch: string)
    requires ValidInput(i)
    decreases |batch|
  {
    batch == "" ||
    var j := Step(server, i, batch[0]);
    !LimitHit(i, j) && (Stops(i, j) ==> |batch| == 1) && Clean(server, j, batch[1..])
  }

  /** What follows a completed request in its batch. */
  ghost predicate Follows(server: Server, i: Input, j: Input, rest: string)
    requires ValidInput(j)
  {
    Clean(server, j, rest) && (Stops(i, j) ==> rest == "")
  }

  /** How the interpreter's outcome on an input shows in the run over that input. */
  ghost predicate Agrees(server: Server, i: Input, input: string, r: I.Outcome)
    requires ValidInput(i)
  {
    match r
    case Done(s, rest) =>
      if s.request.None? then Run(server, i, input) == i.(interp := s)
      else RunsOn(server, i, input, Perform(server, i, s.request.value), rest)
    case Thrown(e, rest) => !e.Limit() && RunsOn(server, i, input, Refuse(server, i, e), rest)
  }

  ghost predicate RunsOn(server: Server, i: Input, input: string, j: Input, rest: string)
    requires ValidInput(i) && ValidInput(j)
  {
    Run(server, i, input) == Run(server, j, rest) && Follows(server, i, j, rest)
  }

  lemma FeedUnfolds(s: I.State, input: string)
    requires I.Valid(s) && s.request.None? && input != ""
    ensures var step := I.CommitLine(s, [input[0]]);
      if step.Next? then I.Valid(step.state) && I.Feed(s, input) == I.Feed(step.state, input[1..])
      else I.Feed(s, input) == I.Thrown(step.error, input[1..])
  {
    assert input[..1] == [input[0]];
    I.CommitLineValid(s, [input[0]]);
  }

  lemma QuietByte(server: Server, i: Input, input: string, j: Input, more: string, r: I.Outcome)
    requires ValidInput(i) && ValidInput(j) && j == i.(interp := j.interp)
    requires Run(server, i, input) == Run(server, j, more) && Agrees(server, j, more, r)
    ensures Agrees(server, i, input, r)
  {
    hide Run, Clean;
    assert forall k: Input :: Stops(i, k) == Stops(j, k);
  }

  lemma {:induction false} FeedRuns(server: Server, i: Input, input: string)
    requires ValidInput(i) && i.left.None? && Clean(server, i, input)
    ensures Agrees(server, i, input, I.Feed(i.interp, input))
    decreases |input|
  {
    if input != "" {
      FeedUnfolds(i.interp, input);
      var step, j, more := I.CommitLine(i.interp, [input[0]]), Step(server, i, input[0]), input[1..];
      assert Run(server, i, input) == Run(server, j, more);
      if step.Next? && step.state.request.None? {
        FeedRuns(server, j, more);
        QuietByte(server, i, input, j, more, I.Feed(i.interp, input));
      } else if step.Next? {
        assert j == Perform(server, i, step.state.request.value);
        assert I.Feed(step.state, more) == I.Done(step.state, more);
      } else {
        assert j == Refuse(server, i, step.error);
      }
    }
  }

  /** A run of upload bytes, none of them the last one missing. */
  lemma {:induction false} UploadRuns(server: Server, i: Input, input: string, count: nat)
    requires ValidInput(i) && i.left.Some? && count <= |input| && count < i.left.value
    requires Clean(server, i, input)
    ensures var j := i.(left := Some(i.left.value - count), log := i.log + StoredBytes(input[..count]));
      Run(server, i, input) == Run(server, j, input[count..]) && Clean(server, j, input[count..])
    decreases count
  {
    hide I.Valid, Run, Clean, Step;
    if count == 0 {
      assert input[..0] == "" && input[0..] == input;
      assert i.log + StoredBytes("") == i.log;
    } else {
      hide StoredBytes;
      OneByte(server, i, input);
      UploadRuns(server, i.(left := Some(i.left.value - 1), log := i.log + [Stored(input[0])]), input[1..], count - 1);
      assert input[1..][count - 1..] == input[count..];
      StoredFirst(i.log, input, count);
    }
  }

  /** The last byte missing, or none: the upload is put in place. */
  lemma {:induction false} UploadEnds(server: Server, i: Input, input: string)
    requires ValidInput(i) && i.left.Some? && i.left.value <= |input| && input != ""
    requires Clean(server, i, input) && server.places(i.log + StoredBytes(input[..i.left.value]))
    ensures var left := i.left.value;
      var j := i.(left := None, log := i.log + StoredBytes(input[..left]) + [Finished]);
      Run(server, i, input) == Run(server, j, input[left..]) && Clean(server, j, input[left..])
    decreases i.left.value
  {
    hide I.Valid, Run, Clean, StoredBytes, Step;
    var left := i.left.value;
    if left == 0 {
      NothingMissing(server, i, input);
    } else if left == 1 {
      StoredOne(input);
      LastByte(server, i, input);
    } else {
      StoredFirst(i.log, input, left);
      OneByte(server, i, input);
      UploadEnds(server, i.(left := Some(left - 1), log := i.log + [Stored(input[0])]), input[1..]);
      assert input[1..][left - 1..] == input[left..];
    }
  }

  lemma StoredOne(input: string)
    requires input != ""
    ensures StoredBytes(input[..1]) == [Stored(input[0])]
  {
  }

  lemma OneByte(server: Server, i: Input, input: string)
    requires ValidInput(i) && i.left.Some? && i.left.value > 1 && input != "" && Clean(server, i, input)
    ensures var j := i.(left := Some(i.left.value - 1), log := i.log + [Stored(input[0])]);
      Run(server, i, input) == Run(server, j, input[1..]) && Clean(server, j, input[1..])
  {
  }

  lemma StoredFirst(log: seq<Event>, input: string, n: nat)
    requires 0 < n <= |input|
    ensures log + [Stored(input[0])] + StoredBytes(input[1..][..n - 1]) == log + StoredBytes(input[..n])
  {
    assert [Stored(input[0])] + StoredBytes(input[1..][..n - 1]) == StoredBytes(input[..n]);
  }

  /** ... or it is not, and the rest of the batch is not read. */
  lemma UploadFails(server: Server, i: Input, input: string)
    requires ValidInput(i) && i.left.Some? && i.left.value <= |input| && input != ""
    requires Clean(server, i, input) && !server.places(i.log + StoredBytes(input[..i.left.value]))
    ensures var left := i.left.value;
      Run(server, i, input) == FinishUpload(server, i.(log := i.log + StoredBytes(input[..left])))
  {
    hide Run, Clean;
    var left := i.left.value;
    if left == 0 {
      FailsAtOnce(server, i, input);
    } else {
      var k := i.(left := Some(1), log := i.log + StoredBytes(input[..left - 1]));
      UploadRuns(server, i, input, left - 1);
      StoredPush(i.log, input, left - 1);
      assert input[left - 1..][0] == input[left - 1];
      LastByteFails(server, k, input[left - 1..]);
    }
  }

  lemma FailsAtOnce(server: Server, i: Input, input: string)
    requires ValidInput(i) && i.left == Some(0) && input != "" && Clean(server, i, input)
    requires !server.places(i.log + StoredBytes(input[..0]))
    ensures Run(server, i, input) == FinishUpload(server, i.(log := i.log + StoredBytes(input[..0])))
  {
    assert input[..0] == "" && i.log + StoredBytes("") == i.log;
    var j := Step(server, i, input[0]);
    assert j == FinishUpload(server, i) && Stops(i, j);
    assert input[1..] == "";
  }

  lemma LastByteFails(server: Server, i: Input, input: string)
    requires ValidInput(i) && i.left == Some(1) && input != "" && Clean(server, i, input)
    requires !server.places(i.log + [Stored(input[0])])
    ensures Run(server, i, input) == FinishUpload(server, i.(log := i.log + [Stored(input[0])]))
  {
    var j := Step(server, i, input[0]);
    assert Stops(i, j);
    assert input[1..] == "";
  }

  lemma StoredPush(log: seq<Event>, input: string, n: nat)
    requires n < |input|
    ensures log + StoredBytes(input[..n]) + [Stored(input[n])] == log + StoredBytes(input[..n + 1])
  {
    assert StoredBytes(input[..n]) + [Stored(input[n])] == StoredBytes(input[..n + 1]);
  }

  /** An upload of which nothing is missing ends before the next byte. */
  lemma NothingMissing(server: Server, i: Input, input: string)
    requires ValidInput(i) && i.left == Some(0) && input != "" && Clean(server, i, input)
    requires server.places(i.log + StoredBytes(input[..0]))
    ensures var j := i.(left := None, log := i.log + StoredBytes(input[..0]) + [Finished]);
      Run(server, i, input) == Run(server, j, input[0..]) && Clean(server, j, input[0..])
  {
    hide CommandByte;
    assert input[..0] == "" && input[0..] == input && i.log + StoredBytes("") == i.log;
    var j := FinishUpload(server, i);
    assert Step(server, i, input[0]) == Step(server, j, input[0]);
    FinishedFirst(server, j, input[0]);
  }

  lemma FinishedFirst(server: Server, j: Input, b: char)
    requires ValidInput(j) && j.left.None? && j.log != [] && j.log[|j.log| - 1] == Finished
    ensures var k, i := CommandByte(server, j, b), j.(log := j.log[..|j.log| - 1]);
      (Stops(i, k) <==> Stops(j, k)) && (LimitHit(i, k) <==> LimitHit(j, k))
  {
  }

  lemma LastByte(server: Server, i: Input, input: string)
    requires ValidInput(i) && i.left == Some(1) && input != "" && Clean(server, i, input)
    requires server.places(i.log + [Stored(input[0])])
    ensures var j := i.(left := None, log := i.log + [Stored(input[0])] + [Finished]);
      Run(server, i, input) == Run(server, j, input[1..]) && Clean(server, j, input[1..])
  {
  }

  ghost predicate TurnRuns(server: Server, c: Conn, batch: string, r: Turn)
    requires Valid(c)
  {
    && r.conn.pending == c.pending && Valid(r.conn)
    && if r.thrown then Run(server, InputOf(c), batch) == InputOf(r.conn)
       else
         && Run(server, InputOf(c), batch) == Run(server, InputOf(r.conn), r.rest)
         && Clean(server, InputOf(r.conn), r.rest)
         && (r.conn.mode == Download ==> r.rest == "")
  }

  lemma RequestRuns(server: Server, c: Conn, batch: string)
    requires Valid(c) && c.mode == Command && batch != ""
    requires Clean(server, InputOf(c), batch)
    ensures TurnRuns(server, c, batch, HandleRequest(server, c, batch))
  {
    var r := I.Feed(c.interp, batch);
    FeedRuns(server, InputOf(c), batch);
    I.CommitIsFeed(c.interp, batch);
    assert I.Commit(c.interp, batch) == r;
    RequestProgress(server, c, batch);
    I.FeedFinishes(c.interp, batch);
    OutcomeRuns(server, c, batch, r);
  }

  lemma OutcomeRuns(server: Server, c: Conn, batch: string, r: I.Outcome)
    requires Valid(c) && c.mode == Command && Agrees(server, InputOf(c), batch, r)
    requires Valid(HandleOutcome(server, c, r).conn)
    requires r.Done? && r.state.request.None? ==> r.rest == ""
    ensures TurnRuns(server, c, batch, HandleOutcome(server, c, r))
  {
    var i, t := InputOf(c), HandleOutcome(server, c, r);
    if r.Thrown? {
      assert InputOf(t.conn) == Refuse(server, i, r.error);
    } else if r.state.request.Some? {
      var j := Perform(server, i, r.state.request.value);
      assert InputOf(t.conn) == j;
      assert t.thrown || t.conn.mode == Download ==> Stops(i, j);
    } else {
      assert InputOf(t.conn) == i.(interp := r.state);
    }
  }

  lemma BytesRun(server: Server, c: Conn, batch: string)
    requires Valid(c) && c.mode == Upload && batch != ""
    requires Clean(server, InputOf(c), batch)
    ensures TurnRuns(server, c, batch, HandleUpload(server, c, batch))
  {
    hide Run, Clean, StoredBytes, I.Valid;
    UploadProgress(server, c, batch);
    var left, i := c.uploadLeft.value, InputOf(c);
    if |batch| < left {
      UploadRuns(server, i, batch, |batch|);
      assert batch[..|batch|] == batch && batch[|batch|..] == "";
    } else if server.places(c.log + StoredBytes(batch[..left])) {
      UploadEnds(server, i, batch);
    } else {
      UploadFails(server, i, batch);
    }
  }

  /** A clean batch has the effect of its bytes one by one, and parks nothing. */
  lemma {:induction false} BatchIsRun(server: Server, c: Conn, batch: string)
    requires Valid(c) && c.mode != Download && batch != ""
    requires Clean(server, InputOf(c), batch)
    ensures var r := Batch(server, c, batch);
      InputOf(r.conn) == Run(server, InputOf(c), batch) && r.conn.pending == c.pending
    decreases |batch|, c.mode == Upload
  {
    RoundProgress(server, c, batch);
    if c.mode == Command { RequestRuns(server, c, batch); } else { BytesRun(server, c, batch); }
    var r := Round(server, c, batch);
    if !r.thrown && r.rest != "" { BatchIsRun(server, r.conn, r.rest); }
  }

  lemma {:induction false} CleanSplit(server: Server, i: Input, p: string, q: string)
    requires ValidInput(i) && Clean(server, i, p + q)
    ensures Clean(server, i, p) && Clean(server, Run(server, i, p), q)
    decreases |p|
  {
    if p == "" {
      assert p + q == q;
    } else {
      assert (p + q)[0] == p[0] && (p + q)[1..] == p[1..] + q;
      CleanSplit(server, Step(server, i, p[0]), p[1..], q);
    }
  }

  // ---------- bytes behind a `dls` ----------

  lemma RequestExtends(server: Server, c: Conn, p: string, q: string)
    requires Valid(c) && c.mode == Command && p != "" && Clean(server, InputOf(c), p)
    requires var r := HandleRequest(server, c, p); r.rest != "" || r.conn.mode == Download
    ensures var r := HandleRequest(server, c, p); HandleRequest(server, c, p + q) == r.(rest := r.rest + q)
  {
    FeedRuns(server, InputOf(c), p);
    I.CommitIsFeed(c.interp, p);
    I.FeedFinishes(c.interp, p);
    var r := I.Feed(c.interp, p);
    assert I.Commit(c.interp, p) == r;
    OutcomeRest(server, c, r, r.rest);
    assert r.Done? ==> r.state.request.Some?;
    I.FeedAppend(c.interp, p, q);
    I.CommitIsFeed(c.interp, p + q);
    assert I.Commit(c.interp, p + q) == r.(rest := r.rest + q);
    OutcomeRest(server, c, r, r.rest + q);
  }

  lemma OutcomeRest(server: Server, c: Conn, r: I.Outcome, rest: string)
    ensures HandleOutcome(server, c, r.(rest := rest)) == HandleOutcome(server, c, r).(rest := rest)
    ensures HandleOutcome(server, c, r).rest == r.rest
  {
  }

  lemma BytesExtend(server: Server, c: Conn, p: string, q: string)
    requires Valid(c) && c.mode == Upload && p != "" && HandleUpload(server, c, p).rest != ""
    ensures var r := HandleUpload(server, c, p); HandleUpload(server, c, p + q) == r.(rest := r.rest + q)
  {
    var left := c.uploadLeft.value;
    assert left < |p|;
    assert (p + q)[..left] == p[..left] && (p + q)[left..] == p[left..] + q;
  }

  /** What follows a `dls` in its batch is parked. */
  lemma {:induction false} BatchParks(server: Server, c: Conn, p: string, q: string)
    requires Valid(c) && c.mode != Download && p != "" && q != ""
    requires Clean(server, InputOf(c), p)
    requires var r := Batch(server, c, p); !r.thrown && r.conn.mode == Download
    ensures var r := Batch(server, c, p); Batch(server, c, p + q) == r.(conn := r.conn.(pending := q))
    decreases |p|, c.mode == Upload
  {
    RoundProgress(server, c, p);
    RoundProgress(server, c, p + q);
    var r := Round(server, c, p);
    if c.mode == Command {
      RequestRuns(server, c, p);
      RequestExtends(server, c, p, q);
    } else {
      BytesRun(server, c, p);
      BytesExtend(server, c, p, q);
    }
    if r.rest == "" {
      assert "" + q == q;
    } else {
      BatchParks(server, r.conn, r.rest, q);
    }
  }
}
